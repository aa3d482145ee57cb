/** What these passes achieve, in whatever order they come: exactly when a
    Service becomes Ready at the head, and what is reported when it cannot. */
module Convergence {
  import opened Common
  import opened Objects
  import opened System
  import opened Histories
  import opened BuildSafety
  import opened FreshPasses
  import Decisions

  // ------------------------------------------------------ orders of passes

  /** How many items of the road the order has met, one after the other and
      with any other passes in between. */
  function Met(road: seq<Pass>, order: seq<Pass>): (k: nat)
    ensures k <= |road|
  {
    if order == [] then 0 else MetBy(road, Met(road, order[..|order| - 1]), Last(order))
  }

  function MetBy(road: seq<Pass>, k: nat, p: Pass): nat {
    if k < |road| && road[k] == p then k + 1 else k
  }

  // -------------------------------------------- no pass ever loses ground

  /** The passes that bring a Service to Ready, each of them needed in turn. */
  const ROAD := [OfService, OfCI, OfPod, OfCI, OfCD, OfRollout, OfCD, OfService]

  /** What holds once k items of the road are met. */
  ghost predicate At(cfg: Config, s: State, w: World, k: nat) {
    match k
    case 0 => Start(cfg, s, w)
    case 1 => Pointed(cfg, s, w)
    case 2 => BuildRuns(cfg, s, w) || Built(cfg, s, w) || Released(cfg, s, w)
    case 3 => Built(cfg, s, w) || Released(cfg, s, w)
    case 4 => Released(cfg, s, w)
    case 5 => Applied(cfg, s, w)
    case 6 => RolledOutHead(cfg, s, w)
    case 7 => Running(cfg, s, w)
    case _ => Ready(cfg, s, w)
  }

  /** A build that can succeed still can after a CI pass. */
  lemma AskedCIPass(cfg: Config, s: State, w: World)
    requires Asked(cfg, s, w) && Buildable(cfg, w)
    requires CanSucceed(s.store, Last(s.store.cis))
    requires StatusOk(s.store, Last(s.store.cis).generation, Last(s.store.cis).status)
    ensures
      var t := CIPass(cfg, s);
      t.store.cis != [] && CanSucceed(t.store, Last(t.store.cis))
  {
    var c := Last(s.store.cis);
    AskedDecision(cfg, s, w);
    var s1 := CIStep(cfg, s, CIBegin(FreshCIView(s.store)));
    if Following(c) {
      FollowingCIPass(cfg, s1);
    } else if Current(c) && c.status.phase == CISucceeded {
      TailOfEnsuring(cfg, s1);
      CIEnsureEffect(cfg, s1);
    } else {
      DeletingCIPass(cfg, s1);
    }
  }

  lemma DeletingCIPass(cfg: Config, s1: State)
    requires s1.ci.CIDeleting? && s1.ci.allowed && s1.store.cis != [] && s1.ci.copy == |s1.store.cis| - 1
    requires s1.ci.svc < |s1.store.svcs|
    ensures
      var t := CITail(cfg, s1);
      t.store.cis != [] && CanSucceed(t.store, Last(t.store.cis))
  {
    TailOfDeleting(cfg, s1);
    var pods := CITail(cfg, s1).store.pods;
    assert pods[|s1.store.pods|] == BuildPod(Last(s1.store.cis).spec, s1.store.svcs[s1.ci.svc].spec);
  }

  lemma FollowingCIPass(cfg: Config, s1: State)
    requires s1.store.cis != [] && CanSucceed(s1.store, Last(s1.store.cis)) && Following(Last(s1.store.cis))
    requires s1.ci.CIPatching? && s1.ci.copy == |s1.store.cis| - 1 && s1.ci.svc < |s1.store.svcs|
    requires s1.ci.write == StillBuilding || s1.ci.write == ToSucceeded
    ensures
      var t := CITail(cfg, s1);
      t.store.cis != [] && CanSucceed(t.store, Last(t.store.cis))
  {
    CIPatchEffect(cfg, s1);
    if s1.ci.write.ToSucceeded? {
      TailOfSuccess(cfg, s1);
      CIEnsureEffect(cfg, CIStep(cfg, s1, CIPatch));
    } else {
      TailOfPatching(cfg, s1);
    }
  }

  lemma SoundTarget(cfg: Config, s: State, w: World)
    requires Sound(s.store) && s.store.svcs != []
    ensures TargetFor(cfg, Last(s.store.svcs), w).dockerfile != ""
  {
  }

  lemma StartKeepsCI(cfg: Config, s: State, w: World)
    requires Start(cfg, s, w) && Buildable(cfg, w)
    ensures Start(cfg, CIPass(cfg, s), w)
  {
    PassIsReachable(cfg, s, w, OfCI);
    CIPassRests(cfg, s);
    ReachableIsSound(cfg, s);
    SoundTarget(cfg, s, w);
    if Asked(cfg, s, w) {
      AskedCIPass(cfg, s, w);
    }
  }

  lemma StartKeeps(cfg: Config, s: State, w: World, p: Pass)
    requires Start(cfg, s, w) && Buildable(cfg, w)
    ensures Start(cfg, Do(cfg, s, w, p), w)
    ensures p == OfService ==> Pointed(cfg, Do(cfg, s, w, p), w)
  {
    PassIsReachable(cfg, s, w, p);
    match p
    case OfService => ServicePassPoints(cfg, s, w);
    case OfCI => StartKeepsCI(cfg, s, w);
    case OfPod => PodPassEffect(s);
    case OfCD => CDPassKeeps(cfg, s, w);
    case OfRollout =>
  }

  lemma ServiceKeeps(cfg: Config, s: State, t: State, w: World, k: nat)
    requires 1 <= k <= 8 && At(cfg, s, w, k) && Buildable(cfg, w) && t == ServicePass(cfg, s, w)
    ensures At(cfg, t, w, if k == 7 then k + 1 else k)
  {
    ServicePassKeeps(cfg, s, w);
  }

  lemma CIPassAdvances(cfg: Config, s: State, w: World)
    requires Pointed(cfg, s, w) && Buildable(cfg, w)
    ensures BuildRuns(cfg, CIPass(cfg, s), w) || Released(cfg, CIPass(cfg, s), w)
    ensures Built(cfg, s, w) ==> Released(cfg, CIPass(cfg, s), w)
    ensures Released(cfg, s, w) ==> CIPass(cfg, s) == s
  {
    var c := Last(s.store.cis);
    if BuildRuns(cfg, s, w) {
      CIPassFollows(cfg, s, w);
    } else if Following(c) || (Current(c) && c.status.phase == CISucceeded) {
      CIPassReleases(cfg, s, w);
    } else {
      CIPassStarts(cfg, s, w);
    }
  }

  lemma CIKeeps(cfg: Config, s: State, t: State, w: World, k: nat)
    requires 1 <= k <= 8 && At(cfg, s, w, k) && Buildable(cfg, w) && t == CIPass(cfg, s)
    ensures At(cfg, t, w, if k == 1 || k == 3 then k + 1 else k)
  {
    CIPassAdvances(cfg, s, w);
  }

  lemma PodKeeps(cfg: Config, s: State, t: State, w: World, k: nat)
    requires 1 <= k <= 8 && At(cfg, s, w, k) && t == PodPass(s)
    ensures At(cfg, t, w, if k == 2 then k + 1 else k)
  {
    if Released(cfg, s, w) {
      PodPassKeeps(cfg, s, w);
    } else {
      PodPassEffect(s);
    }
  }

  lemma CDKeeps(cfg: Config, s: State, t: State, w: World, k: nat)
    requires 1 <= k <= 8 && At(cfg, s, w, k) && t == CDPass(s)
    ensures At(cfg, t, w, if k == 4 || k == 6 then k + 1 else k)
  {
    if Released(cfg, s, w) {
      CDPassEffect(cfg, s, w);
    } else {
      CDPassKeeps(cfg, s, w);
    }
  }

  lemma RolloutKeeps(cfg: Config, s: State, t: State, w: World, k: nat)
    requires 1 <= k <= 8 && At(cfg, s, w, k) && t == RolloutPass(s)
    ensures At(cfg, t, w, if k == 5 then k + 1 else k)
  {
  }

  lemma NextOnTheRoad(k: nat, p: Pass)
    ensures
      MetBy(ROAD, k, p) ==
      match p
      case OfService => if k == 0 || k == 7 then k + 1 else k
      case OfCI => if k == 1 || k == 3 then k + 1 else k
      case OfPod => if k == 2 then k + 1 else k
      case OfCD => if k == 4 || k == 6 then k + 1 else k
      case OfRollout => if k == 5 then k + 1 else k
  {
  }

  lemma LaterProgress(cfg: Config, s: State, w: World, k: nat, p: Pass)
    requires 1 <= k <= 8 && At(cfg, s, w, k) && Buildable(cfg, w)
    ensures At(cfg, Do(cfg, s, w, p), w, MetBy(ROAD, k, p))
  {
    NextOnTheRoad(k, p);
    var t := Do(cfg, s, w, p);
    match p
    case OfService => ServiceKeeps(cfg, s, t, w, k);
    case OfCI => CIKeeps(cfg, s, t, w, k);
    case OfPod => PodKeeps(cfg, s, t, w, k);
    case OfCD => CDKeeps(cfg, s, t, w, k);
    case OfRollout => RolloutKeeps(cfg, s, t, w, k);
  }

  /** Whichever pass comes next, what was reached stays reached, and the next
      pass of the road reaches more. */
  lemma PassProgress(cfg: Config, s: State, w: World, k: nat, p: Pass)
    requires k <= |ROAD| && At(cfg, s, w, k) && Buildable(cfg, w)
    ensures At(cfg, Do(cfg, s, w, p), w, MetBy(ROAD, k, p))
  {
    if k == 0 {
      NextOnTheRoad(k, p);
      StartKeeps(cfg, s, w, p);
    } else {
      LaterProgress(cfg, s, w, k, p);
    }
  }

  /** After any order of passes the Service is as far as the order has met
      the road. */
  lemma {:induction false} OrderProgress(cfg: Config, s: State, w: World, order: seq<Pass>)
    requires Start(cfg, s, w) && Buildable(cfg, w)
    ensures At(cfg, DoAll(cfg, s, w, order), w, Met(ROAD, order))
  {
    if order != [] {
      var before := order[..|order| - 1];
      OrderProgress(cfg, s, w, before);
      PassProgress(cfg, DoAll(cfg, s, w, before), w, Met(ROAD, before), Last(order));
    }
  }

  // ------------------------------------------- when convergence cannot happen

  /** A build failed for the current generation of a CI that matches its
      Service. */
  ghost predicate FailedHead(cfg: Config, s: State, w: World) {
    && Matched(cfg, s, w)
    && Current(Last(s.store.cis))
    && Last(s.store.cis).status.phase == CIFailed
  }

  ghost predicate ReportsFailure(s: State) {
    && s.store.svcs != []
    && Last(s.store.svcs).status.phase == SvcFailed
    && Last(s.store.svcs).status.reason == ReasonCIFailed
  }

  predicate ReportsReady(s: State) {
    s.store.svcs != [] && Last(s.store.svcs).status.phase == SvcReady
  }

  /** The passes that bring a hopeless build to its report. */
  const DEAD_END := [OfService, OfCI, OfService]

  /** What holds of a hopeless build once k items of the dead end are met. */
  ghost predicate Doomed(cfg: Config, s: State, w: World, k: nat) {
    && Asked(cfg, s, w)
    && !CanSucceed(s.store, Last(s.store.cis))
    && (k >= 1 ==> Matched(cfg, s, w) && !ReportsReady(s))
    && (k >= 2 ==> FailedHead(cfg, s, w))
    && (k >= 3 ==> ReportsFailure(s))
  }

  lemma HopelessIsDoomed(cfg: Config, s: State, w: World)
    requires Reachable(cfg, s) && AtRest(s) && s.store.svcs != []
    requires ValidSource(cfg, Last(s.store.svcs).spec) && Hopeless(cfg, s.store, w)
    ensures Doomed(cfg, s, w, 0)
  {
    ReachableIsSound(cfg, s);
    SoundTarget(cfg, s, w);
  }

  /** A CI that is only relabelled reports what it did before. */
  lemma DoomedPhase(st: Store, c: CIVersion, language: string, status: ServiceStatus, cd: Option<CDVersion>)
    requires !CanSucceed(st, c)
    ensures
      var d := c.(language := language);
      && !CanSucceed(st, d)
      && PipelinePhase(status, Some(d), cd).phase != SvcReady
      && (c.status.phase == CIFailed && status.latestRevision == c.spec.revision ==>
            PipelinePhase(status, Some(d), cd) == SetPipelineFailed(status, ReasonCIFailed))
  {
  }

  lemma EnsuredRevision(cfg: Config, v: ServiceVersion, w: World)
    ensures EnsuredStatus(cfg, v, w).latestRevision == w.head && TargetFor(cfg, v, w).sha == w.head
  {
  }

  lemma DoomedServicePass(cfg: Config, s: State, w: World)
    requires Doomed(cfg, s, w, 0) && Buildable(cfg, w)
    ensures
      var t, c := ServicePass(cfg, s, w), Last(s.store.cis);
      && Doomed(cfg, t, w, 1)
      && t.store.pods == s.store.pods
      && Last(t.store.cis) == c.(language := Last(t.store.cis).language)
      && (c.status.phase == CIFailed ==> ReportsFailure(t))
  {
    var v, c := Last(s.store.svcs), Last(s.store.cis);
    var target := TargetFor(cfg, v, w);
    ServicePassEffect(cfg, s, w);
    AfterServiceDiscovered(cfg, s.store, w);
    RelabelingIsNoRebuild(cfg, s.store.cis, v.spec, target);
    EnsuredRevision(cfg, v, w);
    var ref := if s.store.cds == [] then "" else cfg.service + "-cd";
    DoomedPhase(s.store, c, target.language, EnsuredStatus(cfg, v, w).(cdRef := ref),
                LastOf(Synced(s.store.cds, v.spec)));
  }

  lemma DoomedService(cfg: Config, s: State, w: World, k: nat)
    requires k <= 3 && Doomed(cfg, s, w, k) && Buildable(cfg, w)
    ensures Doomed(cfg, ServicePass(cfg, s, w), w, if k == 0 || k == 2 then k + 1 else k)
  {
    DoomedServicePass(cfg, s, w);
  }

  /** A Pod that is gone, with nobody in between. */
  lemma TailOfLoss(cfg: Config, s: State)
    requires s.ci.CIConfirming? && s.store.cis != [] && s.ci.copy == |s.store.cis| - 1
    requires
      var p := Last(s.store.cis).status.buildPod;
      p.None? || p.value >= |s.store.pods| || s.store.pods[p.value].gone
    ensures
      CITail(cfg, s) ==
      s.(store := s.store.(cis := PatchedCI(s.store.cis, Apply(ToLost, Last(s.store.cis)))), ci := CIRest)
  {
    var s2 := CIStep(cfg, s, CIConfirmPod);
    assert s2 == s.(ci := CIComparing(s.ci.copy));
    var s3 := CIStep(cfg, s2, CICompare);
    assert s3 == s.(ci := CIPatching(s.ci.copy, ToLost, 0));
    TailOfPatching(cfg, s3);
    CIPatchEffect(cfg, s3);
    assert CITail(cfg, s) == CIStep(cfg, s3, CIPatch);
  }

  lemma LostOrFailedTail(cfg: Config, s: State, s1: State)
    requires s.ci.CIRest? && s.store.svcs != []
    requires s.store.cis != [] && Following(Last(s.store.cis)) && !CanSucceed(s.store, Last(s.store.cis))
    requires
      s1 == s.(ci :=
        match FreshPod(s.store, Last(s.store.cis))
        case PodUnseen => CIConfirming(|s.store.cis| - 1, |s.store.svcs| - 1)
        case PodSeen(phase) => CIPatching(|s.store.cis| - 1, FollowWrite(phase), |s.store.svcs| - 1))
    ensures
      var c := Last(s.store.cis);
      && CITail(cfg, s1) == s.(store := s.store.(cis := CITail(cfg, s1).store.cis))
      && CITail(cfg, s1).store.cis != []
      && Last(CITail(cfg, s1).store.cis) == c.(status := Last(CITail(cfg, s1).store.cis).status)
      && Current(Last(CITail(cfg, s1).store.cis)) && Last(CITail(cfg, s1).store.cis).status.phase == CIFailed
  {
    if s1.ci.CIConfirming? {
      TailOfLoss(cfg, s1);
    } else {
      TailOfPatching(cfg, s1);
      CIPatchEffect(cfg, s1);
    }
  }

  /** The CI pass of a build that cannot succeed records its failure, unless it
      already is recorded. */
  lemma DoomedCIPass(cfg: Config, s: State, w: World)
    requires Doomed(cfg, s, w, 0) && Buildable(cfg, w)
    ensures
      var t, c := CIPass(cfg, s), Last(s.store.cis);
      && t == s.(store := s.store.(cis := t.store.cis))
      && t.store.cis != []
      && Last(t.store.cis) == c.(status := Last(t.store.cis).status)
      && Current(Last(t.store.cis)) && Last(t.store.cis).status.phase == CIFailed
      && (Current(c) && c.status.phase == CIFailed ==> t == s)
  {
    AskedDecision(cfg, s, w);
    if Following(Last(s.store.cis)) {
      LostOrFailedTail(cfg, s, CIStep(cfg, s, CIBegin(FreshCIView(s.store))));
    }
  }

  lemma DoomedCI(cfg: Config, s: State, w: World, k: nat)
    requires k <= 3 && Doomed(cfg, s, w, k) && Buildable(cfg, w)
    ensures Doomed(cfg, CIPass(cfg, s), w, if k == 1 then 2 else k)
    ensures k >= 2 ==> CIPass(cfg, s) == s
  {
    DoomedCIPass(cfg, s, w);
  }

  lemma DoomedOthers(cfg: Config, s: State, w: World, k: nat, p: Pass)
    requires k <= 3 && Doomed(cfg, s, w, k) && (p == OfPod || p == OfCD || p == OfRollout)
    ensures Doomed(cfg, Do(cfg, s, w, p), w, k) && Do(cfg, s, w, p).store.cis == s.store.cis
  {
    match p
    case OfPod => PodPassEffect(s);
    case OfCD => CDPassKeeps(cfg, s, w);
    case OfRollout =>
  }

  lemma DoomedProgress(cfg: Config, s: State, w: World, k: nat, p: Pass)
    requires k <= |DEAD_END| && Doomed(cfg, s, w, k) && Buildable(cfg, w)
    ensures Doomed(cfg, Do(cfg, s, w, p), w, MetBy(DEAD_END, k, p))
  {
    match p
    case OfService => DoomedService(cfg, s, w, k);
    case OfCI => DoomedCI(cfg, s, w, k);
    case _ => DoomedOthers(cfg, s, w, k, p);
  }

  lemma {:induction false} DoomedStays(cfg: Config, s: State, w: World, order: seq<Pass>)
    requires Doomed(cfg, s, w, 0) && Buildable(cfg, w)
    ensures Doomed(cfg, DoAll(cfg, s, w, order), w, Met(DEAD_END, order))
  {
    if order != [] {
      var before := order[..|order| - 1];
      DoomedStays(cfg, s, w, before);
      DoomedProgress(cfg, DoAll(cfg, s, w, before), w, Met(DEAD_END, before), Last(order));
    }
  }

  /** A hopeless build ends failed at the head and reported, in any order of
      passes that meets the dead end. */
  lemma HopelessIsReported(cfg: Config, s: State, w: World, order: seq<Pass>)
    requires Reachable(cfg, s) && AtRest(s) && s.store.svcs != [] && Buildable(cfg, w)
    requires ValidSource(cfg, Last(s.store.svcs).spec) && Hopeless(cfg, s.store, w)
    requires Met(DEAD_END, order) == |DEAD_END|
    ensures FailedHead(cfg, DoAll(cfg, s, w, order), w) && ReportsFailure(DoAll(cfg, s, w, order))
  {
    HopelessIsDoomed(cfg, s, w);
    DoomedStays(cfg, s, w, order);
  }

  lemma FailedPass(cfg: Config, s: State, w: World, p: Pass)
    requires FailedHead(cfg, s, w) && Buildable(cfg, w)
    ensures
      var t := Do(cfg, s, w, p);
      && FailedHead(cfg, t, w) && t.store.cis == s.store.cis
      && (p == OfService || ReportsFailure(s) ==> ReportsFailure(t))
  {
    match p
    case OfService => FailedServicePass(cfg, s, w);
    case OfCI => FailedCIPass(cfg, s, w);
    case OfPod => PodPassEffect(s);
    case OfCD => CDPassKeeps(cfg, s, w);
    case OfRollout =>
  }

  lemma FailedServicePass(cfg: Config, s: State, w: World)
    requires FailedHead(cfg, s, w) && Buildable(cfg, w)
    ensures
      var t := ServicePass(cfg, s, w);
      FailedHead(cfg, t, w) && t.store.cis == s.store.cis && ReportsFailure(t)
  {
    MatchedServiceEffect(cfg, s, w);
  }

  lemma FailedCIPass(cfg: Config, s: State, w: World)
    requires FailedHead(cfg, s, w) && Buildable(cfg, w)
    ensures CIPass(cfg, s) == s
  {
    AskedDecision(cfg, s, w);
  }

  /** Failed at the head, with these CI versions still, and reported if told. */
  ghost predicate StillFailed(cfg: Config, s: State, w: World, cis: seq<CIVersion>, told: bool) {
    FailedHead(cfg, s, w) && s.store.cis == cis && (told ==> ReportsFailure(s))
  }

  lemma FailedNext(cfg: Config, s: State, t: State, w: World, p: Pass, cis: seq<CIVersion>, told: bool)
    requires StillFailed(cfg, s, w, cis, told) && Buildable(cfg, w) && t == Do(cfg, s, w, p)
    ensures StillFailed(cfg, t, w, cis, told || p == OfService)
  {
    FailedPass(cfg, s, w, p);
  }

  lemma DoOneMore(cfg: Config, s: State, w: World, order: seq<Pass>)
    requires order != []
    ensures DoAll(cfg, s, w, order) == Do(cfg, DoAll(cfg, s, w, order[..|order| - 1]), w, Last(order))
    ensures forall p :: p in order <==> p in order[..|order| - 1] || p == Last(order)
  {
    assert order == order[..|order| - 1] + [Last(order)];
  }

  /** A build that failed for the current generation of a CI that matches its
      Service is never retried, and the next Service pass reports it for good. */
  lemma {:induction false} FailedBuildStays(cfg: Config, s: State, w: World, order: seq<Pass>)
    requires FailedHead(cfg, s, w) && Buildable(cfg, w)
    ensures StillFailed(cfg, DoAll(cfg, s, w, order), w, s.store.cis, OfService in order)
  {
    if order != [] {
      var before := order[..|order| - 1];
      FailedBuildStays(cfg, s, w, before);
      DoOneMore(cfg, s, w, order);
      var t := DoAll(cfg, s, w, before);
      FailedNext(cfg, t, DoAll(cfg, s, w, order), w, Last(order), s.store.cis, OfService in before);
    }
  }

  /** The Service asks for a source that its reconciler does not accept. */
  ghost predicate Rejected(cfg: Config, s: State, k: nat) {
    && AtRest(s)
    && s.store.svcs != []
    && !ValidSource(cfg, Last(s.store.svcs).spec)
    && (k >= 1 ==> Last(s.store.svcs).status.phase == SvcFailed)
  }

  lemma OnlyPatchLeft(cfg: Config, s: State)
    requires s.svc.SvcPatching?
    ensures ServiceTail(cfg, SvcStep(cfg, s, SvcEnsureCI(Newest(s.store.cis), false))) == SvcStep(cfg, s, SvcPatch)
  {
  }

  lemma NothingLeft(cfg: Config, s: State)
    requires s.svc.SvcRest?
    ensures ServiceTail(cfg, SvcStep(cfg, s, SvcEnsureCI(Newest(s.store.cis), false))) == s
  {
  }

  lemma RejectedDecision(cfg: Config, s: State, w: World)
    requires Rejected(cfg, s, 0)
    ensures
      var c, i := Last(s.store.svcs), |s.store.svcs| - 1;
      SvcStep(cfg, s, SvcBegin(ServiceView(s.store, w))) ==
      if c.status.phase != SvcFailed || c.status.observed != c.generation
      then s.(svc := SvcPatching(i, MarkFailed(c.status, c.generation, InvalidSource))) else s
  {
  }

  lemma RejectedService(cfg: Config, s: State, w: World)
    requires Rejected(cfg, s, 0)
    ensures Rejected(cfg, ServicePass(cfg, s, w), 1)
  {
    var s1 := SvcStep(cfg, s, SvcBegin(ServiceView(s.store, w)));
    RejectedDecision(cfg, s, w);
    if s1.svc.SvcPatching? {
      PatchEffect(cfg, s1);
      OnlyPatchLeft(cfg, s1);
    } else {
      NothingLeft(cfg, s1);
    }
    assert ServicePass(cfg, s, w) == ServiceTail(cfg, SvcStep(cfg, s1, SvcEnsureCI(Newest(s1.store.cis), false)));
  }

  lemma RejectedKeeps(cfg: Config, s: State, w: World, k: nat, p: Pass)
    requires k <= 1 && Rejected(cfg, s, k)
    ensures Rejected(cfg, Do(cfg, s, w, p), if p == OfService then 1 else k)
  {
    match p
    case OfService => RejectedService(cfg, s, w);
    case OfCI => CIPassRests(cfg, s);
    case OfPod =>
    case OfCD => CDPassKeeps(cfg, s, w);
    case OfRollout =>
  }

  lemma {:induction false} RejectedStays(cfg: Config, s: State, w: World, order: seq<Pass>)
    requires Rejected(cfg, s, 0)
    ensures Rejected(cfg, DoAll(cfg, s, w, order), if OfService in order then 1 else 0)
  {
    if order != [] {
      var before := order[..|order| - 1];
      RejectedStays(cfg, s, w, before);
      RejectedKeeps(cfg, DoAll(cfg, s, w, before), w, if OfService in before then 1 else 0, Last(order));
      DoOneMore(cfg, s, w, order);
    }
  }

  // --------------------------------------------------------------- theorems

  lemma {:induction false} MetFirst(road: seq<Pass>, order: seq<Pass>)
    requires road != []
    ensures Met(road, order) >= 1 <==> road[0] in order
  {
    if order != [] {
      var before := order[..|order| - 1];
      MetFirst(road, before);
      assert order == before + [Last(order)];
    }
  }

  /** Convergence: after passes with fresh reads that meet the road, a Service
      that was at rest in a reachable state is Ready at the head if its source
      is valid and its CI not hopeless, and only then. */
  lemma Converges(cfg: Config, s: State, w: World, order: seq<Pass>)
    requires Reachable(cfg, s) && AtRest(s) && s.store.svcs != [] && Buildable(cfg, w)
    requires Met(ROAD, order) == |ROAD|
    ensures
      var t := DoAll(cfg, s, w, order);
      ReportsReady(t) && Last(t.store.svcs).status.latestRevision == w.head <==>
      !Decisions.BadSource(cfg, Last(s.store.svcs).spec) && !Hopeless(cfg, s.store, w)
  {
    MetFirst(ROAD, order);
    Decisions.BadIsNotValid(cfg, Last(s.store.svcs).spec);
    if !ValidSource(cfg, Last(s.store.svcs).spec) {
      RejectedStays(cfg, s, w, order);
    } else if Hopeless(cfg, s.store, w) {
      HopelessIsDoomed(cfg, s, w);
      DoomedStays(cfg, s, w, order);
      MetFirst(DEAD_END, order);
    } else {
      OrderProgress(cfg, s, w, order);
    }
  }

  lemma MetMore(road: seq<Pass>, order: seq<Pass>, p: Pass)
    ensures Met(road, order + [p]) == MetBy(road, Met(road, order), p)
  {
    assert (order + [p])[..|order|] == order;
  }

  /** More passes lose nothing, and those that hold every pass meet one item
      more. */
  lemma {:induction false} MetBlock(road: seq<Pass>, order: seq<Pass>, block: seq<Pass>)
    ensures Met(road, order + block) >= Met(road, order)
    ensures Met(road, order) < |road| && road[Met(road, order)] in block ==>
              Met(road, order + block) > Met(road, order)
  {
    if block == [] {
      assert order + block == order;
    } else {
      var before, p := block[..|block| - 1], Last(block);
      MetBlock(road, order, before);
      MetMore(road, order + before, p);
      assert order + block == order + before + [p] by {
        assert block == before + [p];
      }
      if Met(road, order) < |road| && road[Met(road, order)] in block {
        LastOfBlock(road, Met(road, order), block);
      }
    }
  }

  lemma LastOfBlock(road: seq<Pass>, k: nat, block: seq<Pass>)
    requires block != [] && k < |road| && road[k] in block
    ensures road[k] in block[..|block| - 1] || road[k] == Last(block)
  {
    assert block == block[..|block| - 1] + [Last(block)];
  }

  function Flatten(blocks: seq<seq<Pass>>): seq<Pass> {
    if blocks == [] then [] else Flatten(blocks[..|blocks| - 1]) + Last(blocks)
  }

  /** Eight stretches meet the road as soon as every pass occurs in each of
      them, in whatever order and however often. */
  lemma {:induction false} AnyOrderWillDo(road: seq<Pass>, blocks: seq<seq<Pass>>)
    requires forall b, p: Pass | b in blocks :: p in b
    ensures Met(road, Flatten(blocks)) >= if |blocks| < |road| then |blocks| else |road|
  {
    if blocks != [] {
      var before := blocks[..|blocks| - 1];
      AnyOrderWillDo(road, before);
      var k := Met(road, Flatten(before));
      MetBlock(road, Flatten(before), Last(blocks));
      assert k < |road| ==> road[k] in Last(blocks);
    }
  }

  /** One round in the order of the pipeline. */
  const ROUND := [OfService, OfCI, OfPod, OfCD, OfRollout]

  function Rounds(n: nat): seq<Pass> {
    if n == 0 then [] else Rounds(n - 1) + ROUND
  }

  function AfterRound(road: seq<Pass>, k: nat): nat {
    MetBy(road, MetBy(road, MetBy(road, MetBy(road, MetBy(road, k, OfService), OfCI), OfPod), OfCD), OfRollout)
  }

  lemma MetRound(road: seq<Pass>, order: seq<Pass>)
    ensures Met(road, order + ROUND) == AfterRound(road, Met(road, order))
  {
    var o1 := order + [OfService];
    var o2 := o1 + [OfCI];
    var o3 := o2 + [OfPod];
    var o4 := o3 + [OfCD];
    MetMore(road, order, OfService);
    MetMore(road, o1, OfCI);
    MetMore(road, o2, OfPod);
    MetMore(road, o3, OfCD);
    MetMore(road, o4, OfRollout);
    assert order + ROUND == o4 + [OfRollout];
  }

  lemma RoundOnTheRoad(k: nat)
    ensures k == 0 ==> AfterRound(ROAD, k) == 3
    ensures k == 3 ==> AfterRound(ROAD, k) == 6
    ensures k == 6 ==> AfterRound(ROAD, k) == 7
    ensures k == 7 || k == 8 ==> AfterRound(ROAD, k) == 8
  {
  }

  lemma MetRounds(n: nat)
    ensures Met(ROAD, Rounds(n + 1)) == AfterRound(ROAD, Met(ROAD, Rounds(n)))
  {
    MetRound(ROAD, Rounds(n));
  }

  lemma ThreeRounds()
    ensures Met(ROAD, Rounds(3)) == 7
  {
    MetRounds(0);
    MetRounds(1);
    MetRounds(2);
    RoundOnTheRoad(0);
    RoundOnTheRoad(3);
    RoundOnTheRoad(6);
  }

  /** In the order of the pipeline four rounds meet the road. */
  lemma {:induction false} FourRoundsWillDo(n: nat)
    requires n >= 4
    ensures Met(ROAD, Rounds(n)) == |ROAD|
  {
    MetRounds(n - 1);
    RoundOnTheRoad(Met(ROAD, Rounds(n - 1)));
    if n > 4 {
      FourRoundsWillDo(n - 1);
    } else {
      ThreeRounds();
    }
  }
}
