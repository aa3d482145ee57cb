/** Safety of discovery, deployment and readiness over every run: what the
    Service and CD statuses claim really happened before. */
module DeploySafety {
  import opened Common
  import opened Objects
  import opened System
  import opened Fields
  import opened Histories
  import opened BuildSafety

  // --------------------------------------------------------------- evidence

  ghost predicate RecordedByCI(st: Store, image: string, revision: string, c: nat) {
    && c < |st.cis|
    && st.cis[c].status.image == image
    && st.cis[c].status.revision == revision
  }

  /** Deployment version d ran this image on all the replicas it wanted. */
  ghost predicate RanOn(st: Store, image: string, d: nat) {
    d < |st.deps| && st.deps[d].spec.template.image == image && RolledOut(st.deps[d])
  }

  ghost predicate RunningOk(st: Store, cd: CDStatus) {
    cd.phase == CDRunning ==>
      && cd.image != ""
      && (exists c :: RecordedByCI(st, cd.image, cd.revision, c))
      && (exists d :: RanOn(st, cd.image, d))
  }

  ghost predicate BuiltAt(st: Store, r: string, c: nat) {
    && c < |st.cis|
    && st.cis[c].spec.revision == r
    && st.cis[c].status.phase == CISucceeded
    && st.cis[c].status.revision == r
  }

  ghost predicate RunningAt(st: Store, r: string, k: nat) {
    k < |st.cds| && st.cds[k].status.phase == CDRunning && st.cds[k].status.revision == r
  }

  ghost predicate ReadyOk(st: Store, s: ServiceStatus) {
    s.phase == SvcReady ==>
      && (exists c :: BuiltAt(st, s.latestRevision, c))
      && (exists k :: RunningAt(st, s.latestRevision, k))
  }

  ghost predicate FoundTogether(found: set<Finding>, generation: nat, s: ServiceStatus) {
    Finding(generation, s.latestRevision, s.dockerfile) in found
  }

  // -------------------------------------------------------------- invariant

  ghost predicate ServiceOk(s: State, generation: nat, st: ServiceStatus) {
    && st.observed <= generation
    && (Discovered(generation, st) ==> FoundTogether(s.found, generation, st) && st.dockerfile != "")
    && ReadyOk(s.store, st)
  }

  ghost predicate ImageOk(st: Store, d: Deployment) {
    d.spec.template.image != "" && exists c, r :: RecordedByCI(st, d.spec.template.image, r, c)
  }

  ghost predicate SvcPlaceOk(s: State) {
    var svcs := s.store.svcs;
    match s.svc
    case SvcRest => true
    case SvcPointing(i, t, found) =>
      && i < |svcs|
      && t.dockerfile != ""
      && (!found ==> Discovered(svcs[i].generation, svcs[i].status))
    case SvcSyncing(i, st) =>
      && i < |svcs|
      && st.observed == svcs[i].generation
      && FoundTogether(s.found, svcs[i].generation, st)
      && st.dockerfile != ""
      && ReadyOk(s.store, st)
    case SvcDeriving(i, st) =>
      && i < |svcs|
      && st.observed == svcs[i].generation
      && FoundTogether(s.found, svcs[i].generation, st)
      && st.dockerfile != ""
    case SvcPatching(i, st) => i < |svcs| && ServiceOk(s, svcs[i].generation, st)
  }

  /** Between the read and the write of a CD pass its status does not change. */
  ghost predicate CDPlaceOk(s: State) {
    var cds := s.store.cds;
    match s.cd
    case CDRest => true
    case CDReading(copy) => cds != [] && copy.status == Last(cds).status
    case CDApplying(copy, image, revision) =>
      && cds != [] && copy.status == Last(cds).status
      && image != "" && exists c :: RecordedByCI(s.store, image, revision, c)
    case CDPatching(copy, st) => cds != [] && copy.status == Last(cds).status && RunningOk(s.store, st)
  }

  ghost predicate AllServicesOk(s: State) {
    forall n | 0 <= n < |s.store.svcs| :: ServiceOk(s, s.store.svcs[n].generation, s.store.svcs[n].status)
  }

  ghost predicate AllCDsOk(st: Store) {
    forall n | 0 <= n < |st.cds| :: RunningOk(st, st.cds[n].status)
  }

  ghost predicate AllImagesOk(st: Store) {
    forall n | 0 <= n < |st.deps| :: ImageOk(st, st.deps[n])
  }

  ghost predicate DeployInv(s: State) {
    && AllServicesOk(s)
    && AllCDsOk(s.store)
    && AllImagesOk(s.store)
    && SvcPlaceOk(s)
    && CDPlaceOk(s)
  }

  // ------------------------------------------------------------ preservation

  lemma RunningOkExtends(a: Store, b: Store, cd: CDStatus)
    requires Extends(a, b) && RunningOk(a, cd)
    ensures RunningOk(b, cd)
  {
    if cd.phase == CDRunning {
      var c :| RecordedByCI(a, cd.image, cd.revision, c);
      var d :| RanOn(a, cd.image, d);
      assert RecordedByCI(b, cd.image, cd.revision, c) && RanOn(b, cd.image, d);
    }
  }

  lemma ReadyOkExtends(a: Store, b: Store, st: ServiceStatus)
    requires Extends(a, b) && ReadyOk(a, st)
    ensures ReadyOk(b, st)
  {
    if st.phase == SvcReady {
      var c :| BuiltAt(a, st.latestRevision, c);
      var k :| RunningAt(a, st.latestRevision, k);
      assert BuiltAt(b, st.latestRevision, c) && RunningAt(b, st.latestRevision, k);
    }
  }

  lemma ImageOkExtends(a: Store, b: Store, d: Deployment)
    requires Extends(a, b) && ImageOk(a, d)
    ensures ImageOk(b, d)
  {
    var c, r :| RecordedByCI(a, d.spec.template.image, r, c);
    assert RecordedByCI(b, d.spec.template.image, r, c);
  }

  lemma StepServicesOk(cfg: Config, s: State, a: Action)
    requires DeployInv(s)
    ensures AllServicesOk(Step(cfg, s, a))
  {
    var t := Step(cfg, s, a);
    StepExtends(cfg, s, a);
    forall n | 0 <= n < |t.store.svcs|
      ensures ServiceOk(t, t.store.svcs[n].generation, t.store.svcs[n].status)
    {
      if n < |s.store.svcs| {
        ReadyOkExtends(s.store, t.store, t.store.svcs[n].status);
      } else if s.store.svcs != [] {
        var last := Last(s.store.svcs);
        ReadyOkExtends(s.store, t.store, t.store.svcs[n].status);
      }
    }
  }

  /** The phase derived from the copies is Ready only with both proofs. */
  lemma DeriveOk(st: Store, s: ServiceStatus, ci: Option<nat>, cd: Option<nat>)
    requires Seen(st.cis, ci) && Seen(st.cds, cd)
    ensures ReadyOk(st, PipelinePhase(s, At(st.cis, ci), At(st.cds, cd)))
  {
    var after := PipelinePhase(s, At(st.cis, ci), At(st.cds, cd));
    if after.phase == SvcReady {
      assert BuiltAt(st, after.latestRevision, ci.value);
      assert RunningAt(st, after.latestRevision, cd.value);
    }
  }

  lemma DecideServiceOk(cfg: Config, s: State, v: SvcView)
    requires DeployInv(s) && v.copy < |s.store.svcs|
    ensures SvcPlaceOk(s.(svc := DecideService(cfg, s.store, v)))
  {
    var c := s.store.svcs[v.copy];
    assert ServiceOk(s, c.generation, c.status);
  }

  lemma SvcPlaceOkExtends(s: State, t: State)
    requires SvcPlaceOk(s) && Extends(s.store, t.store) && s.found <= t.found && t.svc == s.svc
    ensures SvcPlaceOk(t)
  {
    if s.svc.SvcSyncing? || s.svc.SvcPatching? {
      ReadyOkExtends(s.store, t.store, s.svc.st);
    }
  }

  lemma EnsureCIOk(cfg: Config, s: State, seen: Option<nat>, refused: bool)
    requires DeployInv(s)
    requires s.svc.SvcPointing? && Seen(s.store.cis, seen)
    ensures SvcPlaceOk(SvcStep(cfg, s, SvcEnsureCI(seen, refused)))
  {
    var c := s.store.svcs[s.svc.copy];
    SvcExtends(cfg, s, SvcEnsureCI(seen, refused));
    assert ServiceOk(s, c.generation, c.status);
    ReadyOkExtends(s.store, SvcStep(cfg, s, SvcEnsureCI(seen, refused)).store, c.status);
  }

  lemma SvcStepPlaceOk(cfg: Config, s: State, a: SvcAction)
    requires DeployInv(s)
    ensures SvcPlaceOk(SvcStep(cfg, s, a))
  {
    match a
    case SvcBegin(view) =>
      if s.svc.SvcRest? && view.copy < |s.store.svcs| {
        DecideServiceOk(cfg, s, view);
      }
    case SvcEnsureCI(seen, refused) =>
      if s.svc.SvcPointing? && Seen(s.store.cis, seen) {
        EnsureCIOk(cfg, s, seen, refused);
      }
    case SvcDerive(ci, cd) =>
      if s.svc.SvcDeriving? && Seen(s.store.cis, ci) && Seen(s.store.cds, cd) {
        DeriveOk(s.store, s.svc.st, ci, cd);
      }
    case _ =>
  }

  lemma StepSvcPlaceOk(cfg: Config, s: State, a: Action)
    requires DeployInv(s)
    ensures SvcPlaceOk(Step(cfg, s, a))
  {
    if a.BySvc? {
      SvcStepPlaceOk(cfg, s, a.svc);
    } else {
      StepExtends(cfg, s, a);
      SvcPlaceOkExtends(s, Step(cfg, s, a));
    }
  }

  /** A patch from a copy that is still current writes what it means to. */
  lemma FreshPatchWritesAll(cds: seq<CDVersion>, st: CDStatus)
    requires cds != []
    ensures Last(PatchCD(cds, Last(cds).status, st)).status == st
  {
  }

  /** Adds at most one CD version; only the CD patch gives it another status
      than the version before. */
  predicate CDGrows(s: State, t: State, patched: bool) {
    var cds, more := s.store.cds, t.store.cds;
    || more == cds
    || (cds == [] && |more| == 1 && more[0].status == NEW_CD_STATUS)
    || (cds != [] && |more| == |cds| + 1 && more[..|cds|] == cds &&
        if patched then
          s.cd.CDPatching? &&
          Last(more) == Last(cds).(status := MergeCDStatus(Last(cds).status, s.cd.copy.status, s.cd.st))
        else Last(more).status == Last(cds).status)
  }

  lemma CIGrowsCD(cfg: Config, s: State, a: CIAction)
    ensures CDGrows(s, CIStep(cfg, s, a), false)
  {
  }

  lemma SvcGrowsCD(cfg: Config, s: State, a: SvcAction)
    ensures CDGrows(s, SvcStep(cfg, s, a), false)
  {
  }

  lemma CDGrowsCD(s: State, a: CDAction)
    ensures CDGrows(s, CDStep(s, a), a.CDPatch?)
  {
  }

  lemma StepGrowsCD(cfg: Config, s: State, a: Action)
    ensures CDGrows(s, Step(cfg, s, a), a == ByCD(CDPatch))
  {
    match a
    case ByEnv(_) =>
    case ByCI(c) => CIGrowsCD(cfg, s, c);
    case BySvc(v) => SvcGrowsCD(cfg, s, v);
    case ByCD(d) => CDGrowsCD(s, d);
  }

  lemma StepCDsOk(cfg: Config, s: State, a: Action)
    requires DeployInv(s)
    ensures AllCDsOk(Step(cfg, s, a).store)
  {
    var t := Step(cfg, s, a).store;
    StepExtends(cfg, s, a);
    StepGrowsCD(cfg, s, a);
    forall n | 0 <= n < |t.cds|
      ensures RunningOk(t, t.cds[n].status)
    {
      if n < |s.store.cds| {
        RunningOkExtends(s.store, t, t.cds[n].status);
      } else if s.store.cds != [] {
        RunningOkExtends(s.store, t, if a == ByCD(CDPatch) then s.cd.st else Last(s.store.cds).status);
      }
    }
  }

  lemma StepImagesOk(cfg: Config, s: State, a: Action)
    requires DeployInv(s)
    ensures AllImagesOk(Step(cfg, s, a).store)
  {
    var t := Step(cfg, s, a);
    StepExtends(cfg, s, a);
    forall n | 0 <= n < |t.store.deps|
      ensures ImageOk(t.store, t.store.deps[n])
    {
      if n < |s.store.deps| {
        ImageOkExtends(s.store, t.store, t.store.deps[n]);
      } else if a.ByCD? {
        var c :| RecordedByCI(s.store, s.cd.image, s.cd.revision, c);
        assert RecordedByCI(t.store, s.cd.image, s.cd.revision, c);
      } else {
        ImageOkExtends(s.store, t.store, Last(s.store.deps));
      }
    }
  }

  lemma CDPlaceOkExtends(s: State, t: State)
    requires CDPlaceOk(s) && Extends(s.store, t.store) && t.cd == s.cd
    requires s.store.cds != [] ==> t.store.cds != [] && Last(t.store.cds).status == Last(s.store.cds).status
    ensures CDPlaceOk(t)
  {
    if s.cd.CDApplying? {
      var c :| RecordedByCI(s.store, s.cd.image, s.cd.revision, c);
      assert RecordedByCI(t.store, s.cd.image, s.cd.revision, c);
    } else if s.cd.CDPatching? {
      RunningOkExtends(s.store, t.store, s.cd.st);
    }
  }

  lemma DeployPlaceOk(s: State, seen: Option<nat>, outcome: DeployOutcome)
    requires DeployInv(s) && s.cd.CDApplying? && Seen(s.store.deps, seen)
    ensures CDPlaceOk(CDStep(s, CDDeploy(seen, outcome)))
  {
    var t := CDStep(s, CDDeploy(seen, outcome));
    var c :| RecordedByCI(s.store, s.cd.image, s.cd.revision, c);
    assert RecordedByCI(t.store, s.cd.image, s.cd.revision, c);
    if t.cd.CDPatching? && t.cd.st.phase == CDRunning {
      var d := if seen.Some? && t.store.deps == s.store.deps then seen.value else |t.store.deps| - 1;
      assert RanOn(t.store, s.cd.image, d);
    }
  }

  lemma StepCDPlaceOk(cfg: Config, s: State, a: Action)
    requires DeployInv(s)
    ensures CDPlaceOk(Step(cfg, s, a))
  {
    var t := Step(cfg, s, a);
    StepExtends(cfg, s, a);
    if !a.ByCD? {
      if s.store.cds != [] {
        StepGrowsCD(cfg, s, a);
      }
      CDPlaceOkExtends(s, t);
    } else if a.cd.CDReadCI? {
      if s.cd.CDReading? && Seen(s.store.cis, a.cd.ciRead) && a.cd.ciRead.Some? {
        var c := s.store.cis[a.cd.ciRead.value].status;
        assert RecordedByCI(s.store, c.image, c.revision, a.cd.ciRead.value);
      }
    } else if a.cd.CDDeploy? && s.cd.CDApplying? && Seen(s.store.deps, a.cd.depSeen) {
      DeployPlaceOk(s, a.cd.depSeen, a.cd.outcome);
    }
  }

  lemma {:induction false} RunDeployInv(cfg: Config, trace: seq<Action>)
    ensures DeployInv(Run(cfg, Initial(), trace))
  {
    if trace != [] {
      var s := Run(cfg, Initial(), trace[..|trace| - 1]);
      var a := Last(trace);
      RunDeployInv(cfg, trace[..|trace| - 1]);
      StepServicesOk(cfg, s, a);
      StepCDsOk(cfg, s, a);
      StepImagesOk(cfg, s, a);
      StepSvcPlaceOk(cfg, s, a);
      StepCDPlaceOk(cfg, s, a);
    }
  }

  // --------------------------------------------------------------- theorems

  /** A Service that counts as discovered has a revision and a Dockerfile that
      one complete discovery found together, under the spec of its current
      generation. */
  lemma DiscoveredWasDiscovered(cfg: Config, trace: seq<Action>, n: nat)
    requires n < |Run(cfg, Initial(), trace).store.svcs|
    ensures
      var s := Run(cfg, Initial(), trace);
      var v := s.store.svcs[n];
      Discovered(v.generation, v.status) ==>
        Finding(v.generation, v.status.latestRevision, v.status.dockerfile) in s.found
  {
    RunDeployInv(cfg, trace);
    var s := Run(cfg, Initial(), trace);
    assert ServiceOk(s, s.store.svcs[n].generation, s.store.svcs[n].status);
  }

  /** Ready at a revision: the CI had been asked for it and recorded its
      success, and the CD had been seen running it. */
  lemma ReadyWasEarned(cfg: Config, trace: seq<Action>, n: nat)
    requires n < |Run(cfg, Initial(), trace).store.svcs|
    ensures ReadyOk(Run(cfg, Initial(), trace).store, Run(cfg, Initial(), trace).store.svcs[n].status)
  {
    RunDeployInv(cfg, trace);
    var s := Run(cfg, Initial(), trace);
    assert ServiceOk(s, s.store.svcs[n].generation, s.store.svcs[n].status);
  }

  /** One image was built from revision r and was rolled out. */
  ghost predicate BuiltAndRolledOut(st: Store, r: string, image: string) {
    (exists p :: BuiltBy(st, r, image, p)) && (exists d :: RanOn(st, image, d))
  }

  lemma RunningWasBuilt(s: State, k: nat)
    requires AllCDsOk(s.store) && AllStatusOk(s.store)
    requires k < |s.store.cds| && s.store.cds[k].status.phase == CDRunning
    ensures BuiltAndRolledOut(s.store, s.store.cds[k].status.revision, s.store.cds[k].status.image)
  {
    var cd := s.store.cds[k].status;
    assert RunningOk(s.store, cd);
    var c: nat :| RecordedByCI(s.store, cd.image, cd.revision, c);
    assert StatusOk(s.store, s.store.cis[c].generation, s.store.cis[c].status);
  }

  /** End to end: a Service is Ready at r only if some Pod built one image
      from commit r and succeeded, and a Deployment with that image in its
      template reported every replica updated and available. The tag of that
      image is the start of r, so no rollout of another commit will do. */
  lemma ReadyMeansBuiltAndRolledOut(cfg: Config, trace: seq<Action>, n: nat)
    requires n < |Run(cfg, Initial(), trace).store.svcs|
    ensures
      var st := Run(cfg, Initial(), trace).store;
      var s := st.svcs[n].status;
      s.phase == SvcReady ==>
        exists image :: BuiltAndRolledOut(st, s.latestRevision, image) && Tagged(image, s.latestRevision)
  {
    var s := Run(cfg, Initial(), trace);
    var r := s.store.svcs[n].status.latestRevision;
    if s.store.svcs[n].status.phase == SvcReady {
      ReadyWasEarned(cfg, trace, n);
      RunDeployInv(cfg, trace);
      RunBuildInv(cfg, trace);
      RunSourceInv(cfg, trace);
      var k: nat :| RunningAt(s.store, r, k);
      RunningWasBuilt(s, k);
      var image := s.store.cds[k].status.image;
      var p: nat :| BuiltBy(s.store, r, image, p);
      assert ClonesTheService(cfg, s.store, p);
      BuiltIsNamed(cfg, s.store, r, image, p);
    }
  }

  /** Whatever is deployed, at any moment, was built by a Pod that succeeded,
      from the commit in its tag. */
  lemma DeployedWasBuilt(cfg: Config, trace: seq<Action>, n: nat)
    requires n < |Run(cfg, Initial(), trace).store.deps|
    ensures
      var st := Run(cfg, Initial(), trace).store;
      exists r, p :: BuiltBy(st, r, st.deps[n].spec.template.image, p) && Tagged(st.deps[n].spec.template.image, r)
  {
    RunDeployInv(cfg, trace);
    RunBuildInv(cfg, trace);
    var st := Run(cfg, Initial(), trace).store;
    assert ImageOk(st, st.deps[n]);
    var c: nat, r :| RecordedByCI(st, st.deps[n].spec.template.image, r, c);
    assert StatusOk(st, st.cis[c].generation, st.cis[c].status);
    RunSourceInv(cfg, trace);
    var p: nat :| BuiltBy(st, r, st.deps[n].spec.template.image, p);
    assert ClonesTheService(cfg, st, p);
    BuiltIsNamed(cfg, st, r, st.deps[n].spec.template.image, p);
  }

  /** The last good image: only a recorded success changes what the CI offers
      for deployment. A running, failing, rejected or lost build never does. */
  lemma OnlySuccessChangesTheImage(cfg: Config, s: State, a: Action)
    requires s.store.cis != []
    ensures
      var now, next := Last(s.store.cis).status, Last(Step(cfg, s, a).store.cis).status;
      (next.image != now.image || next.revision != now.revision) ==>
        a == ByCI(CIPatch) && s.ci.CIPatching? && s.ci.write == ToSucceeded && next.phase == CISucceeded
  {
    if a != ByCI(CIPatch) {
      OthersKeepCIStatus(cfg, s, a);
    }
  }
}
