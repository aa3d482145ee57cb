/** The Service reconciler as a program; see CIReconciler for the scheme. */
module ServiceReconciler {
  import opened Common
  import opened Objects
  import opened System
  import opened Effects
  import opened Api

  /** The reconciler's own copy of a Service, read from the cache. */
  class ServiceCopy {
    const version: nat
    const generation: nat
    const spec: ServiceSpec
    var phase: SvcPhase
    var reason: SvcReason
    var language: string
    var latestRevision: string
    var ciRef: string
    var cdRef: string
    var dockerfile: string
    var observed: nat

    constructor (version: nat, v: ServiceVersion)
      ensures this.version == version && generation == v.generation && spec == v.spec
      ensures Status() == v.status
    {
      this.version := version;
      generation := v.generation;
      spec := v.spec;
      phase := v.status.phase;
      reason := v.status.reason;
      language := v.status.language;
      latestRevision := v.status.latestRevision;
      ciRef := v.status.ciRef;
      cdRef := v.status.cdRef;
      dockerfile := v.status.dockerfile;
      observed := v.status.observed;
    }

    function Status(): ServiceStatus
      reads this
    {
      ServiceStatus(phase, reason, language, latestRevision, ciRef, cdRef, dockerfile, observed)
    }

    /** setPhase; the reason of Ready is set where Ready is. */
    method SetPhase(p: SvcPhase)
      modifies this
      ensures Status() == Objects.SetPhase(old(Status()), p)
    {
      phase := p;
      if p != SvcReady {
        reason := InPhase(p);
      } else {
        reason := SvcRunning;
      }
    }

    /** setPipelineFailed. */
    method SetPipelineFailed(r: SvcReason)
      modifies this
      ensures Status() == Objects.SetPipelineFailed(old(Status()), r)
    {
      phase := SvcFailed;
      reason := r;
    }

    /** markFailed. */
    method MarkFailed(fault: SvcFault)
      modifies this
      ensures Status() == Objects.MarkFailed(old(Status()), generation, fault)
    {
      phase := SvcFailed;
      observed := generation;
      reason := OwnFault(fault);
    }

    /** The end of discoverAndBuild: all that it found, in one go. */
    method RecordDiscovery(target: Target, ci: string)
      modifies this
      ensures Status() == Objects.SetPhase(
                old(Status()).(language := target.language, latestRevision := target.sha,
                dockerfile := target.dockerfile, ciRef := ci, observed := generation), SvcBuilding)
    {
      language := target.language;
      latestRevision := target.sha;
      dockerfile := target.dockerfile;
      ciRef := ci;
      observed := generation;
      SetPhase(SvcBuilding);
    }
  }

  predicate CopyOf(api: Server, copy: ServiceCopy, orig: ServiceVersion)
    reads api, copy
  {
    && copy.version < |api.sys.store.svcs|
    && api.sys.store.svcs[copy.version] == orig
    && copy.generation == orig.generation
    && copy.spec == orig.spec
  }

  /** The status patch with the optimistic lock. */
  method PatchStatus(api: Server, copy: ServiceCopy, ghost orig: ServiceVersion)
    returns (answer: Answer, ghost acts: seq<Effect>)
    requires api.Valid() && CopyOf(api, copy, orig)
    requires api.sys.svc == SvcPatching(copy.version, copy.Status())
    modifies api
    ensures api.Kept(SvcActor, answer.Lost?, acts) && api.sys.svc.SvcRest? && !answer.Refused?
    ensures ServiceWritten(api.replies(old(api.calls)), api.sys.store, copy.version, copy.Status(), acts, answer)
    ensures answer.Done? ==> api.sys.store.svcs != [] && Last(api.sys.store.svcs) == orig.(status := copy.Status())
    ensures answer.Conflict? ==> copy.version + 1 < |api.sys.store.svcs|
  {
    acts := [];
    var r := api.Turn(SvcActor);
    if r.lost {
      return Lost, acts;
    }
    answer := if copy.version == |api.sys.store.svcs| - 1 then Done else Conflict;
    acts := SvcEffect(api.cfg, api.sys, SvcPatch);
    api.Move(SvcActor, BySvc(SvcPatch));
  }

  /** ensureCI, from whichever copy of the CI the cache has: when it is done,
      some CI version asks for just the target. */
  method EnsureCI(api: Server, copy: ServiceCopy, target: Target, found: bool, ghost orig: ServiceVersion)
    returns (answer: Answer, ghost acts: seq<Effect>)
    requires api.Valid() && CopyOf(api, copy, orig)
    requires api.sys.svc == SvcPointing(copy.version, target, found)
    modifies api
    ensures api.Kept(SvcActor, answer.Lost?, acts)
    ensures api.calls == old(api.calls) + 1 && (answer.Lost? <==> api.replies(old(api.calls)).lost)
    ensures !answer.Lost? ==> (answer.Refused? <==> api.replies(old(api.calls)).refused)
    ensures acts == if answer.Done? then [EnsuredCI(copy.version, target)] else []
    ensures forall e | e in acts :: Holds(api.cfg, api.sys.store, e)
    ensures answer.Done? ==>
              api.sys.svc == SvcSyncing(copy.version, if found then Recorded(api.cfg, orig, target)
                                                      else orig.status.(ciRef := api.cfg.ci))
    ensures answer.Conflict? ==>
              && api.sys.store.cis != []
              && api.sys.svc == if found then SvcPatching(copy.version, SetPhase(orig.status, SvcDiscovering))
                                else SvcRest
    ensures answer.Refused? ==>
              api.sys.svc ==
              if found then SvcPatching(copy.version, MarkFailed(orig.status, orig.generation, CIInitFailed))
              else SvcRest
  {
    acts := [];
    var r := api.Turn(SvcActor);
    if r.lost {
      return Lost, acts;
    }
    var seen := CachedIn(api.sys.store.cis, r.cached);
    acts := SvcEffect(api.cfg, api.sys, SvcEnsureCI(seen, r.refused));
    SvcEffectHolds(api.cfg, api.sys, SvcEnsureCI(seen, r.refused));
    api.Move(SvcActor, BySvc(SvcEnsureCI(seen, r.refused)));
    answer := if r.refused then Refused else if api.sys.svc.SvcSyncing? then Done else Conflict;
  }

  /** The place of a pass that has discovered this at a commit. */
  function DiscoveredAt(cfg: Config, orig: ServiceVersion, i: nat, sha: string, plugins: seq<PluginRef>, d: Discovery)
    : SvcPlace
  {
    match d
    case NoStack => SvcPatching(i, MarkFailed(orig.status, orig.generation, DiscoveryFailed))
    case NoDockerfile => SvcPatching(i, MarkFailed(orig.status, orig.generation, DockerfileFailed))
    case Stack(language, hash) =>
      SvcPointing(i, Target(language, sha, ConfigMapName(cfg, hash), plugins), true)
  }

  /** discoverAndBuild: completed if revision, Dockerfile, language, CI name
      and generation are all recorded together; otherwise the status that its
      way out asks for was written, and nothing else. */
  method DiscoverAndBuild(api: Server, copy: ServiceCopy, sha: string, view: SvcView, ghost orig: ServiceVersion)
    returns (completed: bool, answer: Answer, ghost acts: seq<Effect>)
    requires api.Valid() && CopyOf(api, copy, orig) && copy.Status() == orig.status && view.plugins.Some?
    requires api.sys.svc == DiscoveredAt(api.cfg, orig, copy.version, sha, view.plugins.value, view.discovery)
    modifies api, copy
    ensures api.Kept(SvcActor, answer.Lost?, acts)
    ensures completed ==>
              && answer.Done? && view.discovery.Stack?
              && var target := Target(view.discovery.language, sha, ConfigMapName(api.cfg, view.discovery.hash),
                                      view.plugins.value);
                 && acts == [EnsuredCI(copy.version, target)]
                 && copy.Status() == Recorded(api.cfg, orig, target)
                 && api.sys.svc == SvcSyncing(copy.version, copy.Status())
                 && api.calls == old(api.calls) + 1
                 && !api.replies(old(api.calls)).lost && !api.replies(old(api.calls)).refused
    ensures !completed ==>
              && api.sys.svc.SvcRest?
              && GaveReason(api.replies, old(api.calls), api.sys.store, orig, copy.version, view.discovery, acts,
                            answer)
  {
    completed, acts := false, [];
    copy.SetPhase(SvcDiscovering);
    if !view.discovery.Stack? {
      answer, acts := FailDiscovery(api, copy, view.discovery, orig);
      return;
    }
    var target := Target(view.discovery.language, sha, ConfigMapName(api.cfg, view.discovery.hash), view.plugins.value);
    completed, answer, acts := PointAndRecord(api, copy, target, orig);
  }

  /** The end of discoverAndBuild: the CI is pointed at what was found, and all
      of it recorded. */
  method PointAndRecord(api: Server, copy: ServiceCopy, target: Target, ghost orig: ServiceVersion)
    returns (completed: bool, answer: Answer, ghost acts: seq<Effect>)
    requires api.Valid() && CopyOf(api, copy, orig) && copy.Status() == SetPhase(orig.status, SvcDiscovering)
    requires api.sys.svc == SvcPointing(copy.version, target, true)
    modifies api, copy
    ensures api.Kept(SvcActor, answer.Lost?, acts)
    ensures completed ==>
              && answer.Done?
              && acts == [EnsuredCI(copy.version, target)]
              && copy.Status() == Recorded(api.cfg, orig, target)
              && api.sys.svc == SvcSyncing(copy.version, copy.Status())
              && api.calls == old(api.calls) + 1
              && !api.replies(old(api.calls)).lost && !api.replies(old(api.calls)).refused
    ensures !completed ==>
              && api.sys.svc.SvcRest?
              && PointingFailed(api.replies, old(api.calls), api.sys.store, orig, copy.version, acts, answer)
  {
    answer, acts := EnsureCI(api, copy, target, true, orig);
    completed := answer.Done?;
    if completed {
      copy.RecordDiscovery(target, api.cfg.ci);
    } else if !answer.Lost? {
      answer, acts := WriteReason(api, copy, answer.Refused?, orig);
    }
  }

  /** The repository has no stack, or its Dockerfile could not be stored. */
  method FailDiscovery(api: Server, copy: ServiceCopy, d: Discovery, ghost orig: ServiceVersion)
    returns (answer: Answer, ghost acts: seq<Effect>)
    requires api.Valid() && CopyOf(api, copy, orig) && !d.Stack?
    requires copy.Status() == SetPhase(orig.status, SvcDiscovering)
    requires api.sys.svc ==
             SvcPatching(copy.version, MarkFailed(orig.status, orig.generation,
                                                  if d.NoStack? then DiscoveryFailed else DockerfileFailed))
    modifies api, copy
    ensures api.Kept(SvcActor, answer.Lost?, acts) && api.sys.svc.SvcRest?
    ensures GaveReason(api.replies, old(api.calls), api.sys.store, orig, copy.version, d, acts, answer)
  {
    copy.MarkFailed(if d.NoStack? then DiscoveryFailed else DockerfileFailed);
    answer, acts := PatchStatus(api, copy, orig);
  }

  /** ensureCI was refused, or raced another write. */
  method WriteReason(api: Server, copy: ServiceCopy, refused: bool, ghost orig: ServiceVersion)
    returns (answer: Answer, ghost acts: seq<Effect>)
    requires api.Valid() && CopyOf(api, copy, orig) && copy.Status() == SetPhase(orig.status, SvcDiscovering)
    requires api.sys.svc == SvcPatching(
                              copy.version,
                              if refused then MarkFailed(orig.status, orig.generation, CIInitFailed)
                              else SetPhase(orig.status, SvcDiscovering))
    modifies api, copy
    ensures api.Kept(SvcActor, answer.Lost?, acts) && api.sys.svc.SvcRest?
    ensures ServiceWritten(api.replies(old(api.calls)), api.sys.store, copy.version,
                           if refused then MarkFailed(orig.status, orig.generation, CIInitFailed)
                           else SetPhase(orig.status, SvcDiscovering), acts, answer)
  {
    if refused {
      copy.MarkFailed(CIInitFailed);
    }
    answer, acts := PatchStatus(api, copy, orig);
  }

  /** ensureCI, call k, did not succeed, and that is written: refused if it was
      refused, else with a copy of the CI that was not the current one. */
  predicate PointingFailed(replies: Replies, k: nat, st: Store, orig: ServiceVersion, i: nat, acts: seq<Effect>,
                           answer: Answer) {
    if replies(k).lost then GaveUpThere(acts, answer)
    else if replies(k).refused then
      ServiceWritten(replies(k + 1), st, i, MarkFailed(orig.status, orig.generation, CIInitFailed), acts, answer)
    else
      st.cis != [] && ServiceWritten(replies(k + 1), st, i, SetPhase(orig.status, SvcDiscovering), acts, answer)
  }

  /** Why a discovery did not complete is what its pass writes. */
  predicate GaveReason(replies: Replies, k: nat, st: Store, orig: ServiceVersion, i: nat, d: Discovery,
                       acts: seq<Effect>, answer: Answer) {
    match d
    case NoStack =>
      ServiceWritten(replies(k), st, i, MarkFailed(orig.status, orig.generation, DiscoveryFailed), acts, answer)
    case NoDockerfile =>
      ServiceWritten(replies(k), st, i, MarkFailed(orig.status, orig.generation, DockerfileFailed), acts, answer)
    case Stack(_, _) => PointingFailed(replies, k, st, orig, i, acts, answer)
  }

  /** syncCD, from whichever copy of the CD the cache lists: the reference is
      set if and only if one is. */
  method SyncCD(api: Server, copy: ServiceCopy, ghost orig: ServiceVersion)
    returns (answer: Answer, ghost listed: Option<nat>, ghost acts: seq<Effect>)
    requires api.Valid() && CopyOf(api, copy, orig)
    requires api.sys.svc == SvcSyncing(copy.version, copy.Status())
    modifies api, copy
    ensures api.Kept(SvcActor, answer.Lost?, acts) && (answer.Done? || answer.Lost?)
    ensures api.calls == old(api.calls) + 1 && (answer.Lost? <==> api.replies(old(api.calls)).lost)
    ensures acts == if answer.Done? then [SyncedCD(listed)] else []
    ensures answer.Done? ==>
              && FromCache(listed, api.replies(old(api.calls)).cached, |old(api.sys).store.cds|)
              && copy.Status() == Listed(api.cfg, old(copy.Status()), listed)
              && api.sys.svc == SvcDeriving(copy.version, copy.Status())
  {
    acts, listed := [], None;
    var r := api.Turn(SvcActor);
    if r.lost {
      return Lost, listed, acts;
    }
    var seen := CachedIn(api.sys.store.cds, r.cached);
    copy.cdRef := "";
    if seen.Some? {
      copy.cdRef := api.cfg.service + "-cd";
    }
    acts, listed := SvcEffect(api.cfg, api.sys, SvcSyncCD(seen)), seen;
    api.Move(SvcActor, BySvc(SvcSyncCD(seen)));
    answer := Done;
  }

  /** setPipelinePhase: the phase is derived from the copies of the CI and CD
      that the cache gives. */
  method SetPipelinePhase(api: Server, copy: ServiceCopy, ghost orig: ServiceVersion)
    returns (answer: Answer, ghost ci: Option<nat>, ghost cd: Option<nat>, ghost acts: seq<Effect>)
    requires api.Valid() && CopyOf(api, copy, orig)
    requires api.sys.svc == SvcDeriving(copy.version, copy.Status())
    modifies api, copy
    ensures api.Kept(SvcActor, answer.Lost?, acts) && (answer.Done? || answer.Lost?)
    ensures api.calls == old(api.calls) + 1 && (answer.Lost? <==> api.replies(old(api.calls)).lost)
    ensures acts == if answer.Done? then [Derived(ci, cd)] else []
    ensures answer.Done? ==>
              && FromCache(ci, api.replies(old(api.calls)).cached, |old(api.sys).store.cis|)
              && FromCache(cd, api.replies(old(api.calls)).alsoCached, |old(api.sys).store.cds|)
              && Seen(api.sys.store.cis, ci) && Seen(api.sys.store.cds, cd)
              && copy.Status() ==
                 PipelinePhase(old(copy.Status()), At(api.sys.store.cis, ci), At(api.sys.store.cds, cd))
              && api.sys.svc == SvcPatching(copy.version, copy.Status())
  {
    acts, ci, cd := [], None, None;
    var r := api.Turn(SvcActor);
    if r.lost {
      return Lost, ci, cd, acts;
    }
    var store := api.sys.store;
    var ciSeen, cdSeen := CachedIn(store.cis, r.cached), CachedIn(store.cds, r.alsoCached);
    acts, ci, cd := SvcEffect(api.cfg, api.sys, SvcDerive(ciSeen, cdSeen)), ciSeen, cdSeen;
    api.Move(SvcActor, BySvc(SvcDerive(ciSeen, cdSeen)));
    DerivePhase(copy, At(store.cis, ciSeen), At(store.cds, cdSeen));
    answer := Done;
  }

  /** The switches of setPipelinePhase: Ready exactly if the CI has built the
      latest revision and the CD runs it; a failure of the CI or CD exactly if
      theirs is about the latest revision's pipeline; Building otherwise, and
      nothing else of the status changes. */
  method DerivePhase(copy: ServiceCopy, ci: Option<CIVersion>, cd: Option<CDVersion>)
    modifies copy
    ensures copy.phase == SvcReady <==> RunsLatest(old(copy.Status()), ci, cd)
    ensures copy.reason == ReasonCIFailed <==> CIHasFailed(old(copy.Status()), ci)
    ensures copy.reason == ReasonCDFailed <==> CDHasFailed(old(copy.Status()), ci, cd)
    ensures copy.phase == SvcFailed <==> copy.reason == ReasonCIFailed || copy.reason == ReasonCDFailed
    ensures copy.phase == SvcReady || copy.phase == SvcFailed || copy.phase == SvcBuilding
    ensures copy.Status() == old(copy.Status()).(phase := copy.phase, reason := copy.reason)
    ensures copy.Status() == PipelinePhase(old(copy.Status()), ci, cd)
  {
    if ci.None? || ci.value.spec.revision != copy.latestRevision {
      copy.SetPhase(SvcBuilding);
      return;
    }
    if ci.value.status.phase == CIFailed {
      copy.SetPipelineFailed(ReasonCIFailed);
      return;
    }
    if ci.value.status.phase != CISucceeded || ci.value.status.revision != copy.latestRevision {
      copy.SetPhase(SvcBuilding);
      return;
    }
    if copy.cdRef == "" || cd.None? {
      copy.SetPhase(SvcBuilding);
      return;
    }
    if cd.value.status.phase == CDFailed {
      copy.SetPipelineFailed(ReasonCDFailed);
    } else if cd.value.status.phase == CDRunning && cd.value.status.revision == copy.latestRevision {
      copy.SetPhase(SvcReady);
    } else {
      copy.SetPhase(SvcBuilding);
    }
  }

  method ReadCache(api: Server, view: SvcView) returns (copy: ServiceCopy)
    requires api.Valid() && api.sys.svc.SvcRest? && view.copy < |api.sys.store.svcs|
    modifies api
    ensures api.Kept(SvcActor, false, [BeganService(view)]) && fresh(copy)
    ensures api.calls == old(api.calls)
    ensures api.sys == old(api.sys).(svc := DecideService(api.cfg, old(api.sys).store, view))
    ensures copy.version == view.copy
    ensures CopyOf(api, copy, old(api.sys).store.svcs[view.copy])
    ensures copy.Status() == old(api.sys).store.svcs[view.copy].status
  {
    copy := new ServiceCopy(view.copy, api.sys.store.svcs[view.copy]);
    api.Take(BySvc(SvcBegin(view)));
  }

  /** The derived phase and the status write. */
  method Conclude(api: Server, copy: ServiceCopy, ghost orig: ServiceVersion)
    returns (answer: Answer, ghost acts: seq<Effect>)
    requires api.Valid() && CopyOf(api, copy, orig)
    requires api.sys.svc == SvcDeriving(copy.version, copy.Status())
    modifies api, copy
    ensures api.Kept(SvcActor, answer.Lost?, acts) && api.sys.svc.SvcRest?
    ensures ServiceDerived(api.replies, old(api.calls), old(api.sys).store, api.sys.store, copy.version,
                           old(copy.Status()), acts, answer)
  {
    ghost var before := api.svcDone;
    ghost var ci, cd;
    answer, ci, cd, acts := SetPipelinePhase(api, copy, orig);
    if answer.Lost? {
      return;
    }
    ghost var first := acts;
    assert api.svcDone == before + first + [];
    answer, acts := PatchStatus(api, copy, orig);
    Then(before, first, acts, if answer.Lost? then [GaveUp] else []);
    assert (first + acts)[1..] == acts;
    acts := first + acts;
  }

  /** The end of a pass: the CD, the derived phase and the status write. */
  method Finish(api: Server, copy: ServiceCopy, ghost orig: ServiceVersion)
    returns (answer: Answer, ghost acts: seq<Effect>)
    requires api.Valid() && CopyOf(api, copy, orig)
    requires api.sys.svc == SvcSyncing(copy.version, copy.Status())
    modifies api, copy
    ensures api.Kept(SvcActor, answer.Lost?, acts) && api.sys.svc.SvcRest?
    ensures ServiceFinished(api.cfg, api.replies, old(api.calls), old(api.sys).store, api.sys.store, copy.version,
                            old(copy.Status()), acts, answer)
  {
    ghost var before, was := api.svcDone, api.sys.store;
    ghost var listed;
    answer, listed, acts := SyncCD(api, copy, orig);
    if answer.Lost? {
      return;
    }
    ghost var first, now := acts, api.sys.store;
    assert api.svcDone == before + first + [];
    ghost var k, status := api.calls, copy.Status();
    answer, acts := Conclude(api, copy, orig);
    Then(before, first, acts, if answer.Lost? then [GaveUp] else []);
    DerivedSince(api.replies, k, was, now, api.sys.store, copy.version, status, acts, answer);
    assert (first + acts)[1..] == acts;
    acts := first + acts;
  }

  /** What the cache gave later it gave also since. */
  lemma DerivedSince(replies: Replies, k: nat, was: Store, now: Store, st: Store, i: nat, s: ServiceStatus,
                     acts: seq<Effect>, answer: Answer)
    requires Later(was, now) && ServiceDerived(replies, k, now, st, i, s, acts, answer)
    ensures ServiceDerived(replies, k, was, st, i, s, acts, answer)
  {
  }

  lemma FinishedSince(cfg: Config, replies: Replies, k: nat, was: Store, now: Store, st: Store, i: nat,
                      s: ServiceStatus, acts: seq<Effect>, answer: Answer)
    requires Later(was, now) && ServiceFinished(cfg, replies, k, now, st, i, s, acts, answer)
    ensures ServiceFinished(cfg, replies, k, was, st, i, s, acts, answer)
  {
  }

  /** reconcile: one pass under any interference; see CIReconciler. */
  method Reconcile(api: Server, view: SvcView) returns (answer: Answer, ghost acts: seq<Effect>)
    requires api.Valid() && api.sys.svc.SvcRest? && view.copy < |api.sys.store.svcs|
    modifies api
    ensures api.sys.svc.SvcRest?
    ensures api.Kept(SvcActor, answer.Lost?, [BeganService(view)] + acts)
    ensures ServicePassDid(api.cfg, api.replies, old(api.calls), old(api.sys).store, api.sys.store,
                           DecideService(api.cfg, old(api.sys).store, view), acts, answer)
  {
    ghost var before := api.svcDone;
    var svc := ReadCache(api, view);
    ghost var orig := old(api.sys).store.svcs[view.copy];
    answer, acts := Pass(api, svc, view, orig);
    Then(before, [BeganService(view)], acts, if answer.Lost? then [GaveUp] else []);
  }

  /** The pass after its cached read. */
  method Pass(api: Server, svc: ServiceCopy, view: SvcView, ghost orig: ServiceVersion)
    returns (answer: Answer, ghost acts: seq<Effect>)
    requires api.Valid() && CopyOf(api, svc, orig) && svc.Status() == orig.status && view.copy == svc.version
    requires api.sys.svc == DecideService(api.cfg, api.sys.store, view)
    modifies api, svc
    ensures api.Kept(SvcActor, answer.Lost?, acts) && api.sys.svc.SvcRest?
    ensures ServicePassDid(api.cfg, api.replies, old(api.calls), old(api.sys).store, api.sys.store, old(api.sys).svc,
                           acts, answer)
  {
    answer, acts := Done, [];
    var changed := svc.observed != svc.generation;
    if !ValidSource(api.cfg, svc.spec) {
      if svc.phase != SvcFailed || changed {
        svc.MarkFailed(InvalidSource);
        answer, acts := PatchStatus(api, svc, orig);
      }
      return;
    }
    if svc.phase == SvcFailed && !PipelineFailure(svc.Status()) && !changed {
      if view.waiting {
        return;
      }
    }
    if !view.token || view.plugins.None? {
      svc.MarkFailed(if !view.token then SecretUnavailable else PluginUnavailable);
      answer, acts := PatchStatus(api, svc, orig);
      return;
    }
    answer, acts := FollowRemote(api, svc, view, orig);
  }

  /** The rest of reconcile, once the Service may be worked on. */
  method FollowRemote(api: Server, svc: ServiceCopy, view: SvcView, ghost orig: ServiceVersion)
    returns (answer: Answer, ghost acts: seq<Effect>)
    requires api.Valid() && CopyOf(api, svc, orig) && svc.Status() == orig.status
    requires view.copy == svc.version && view.token && view.plugins.Some?
    requires ValidSource(api.cfg, orig.spec)
    requires !(orig.status.phase == SvcFailed && !PipelineFailure(orig.status) &&
               orig.status.observed == orig.generation && view.waiting)
    requires api.sys.svc == DecideService(api.cfg, api.sys.store, view)
    modifies api, svc
    ensures api.Kept(SvcActor, answer.Lost?, acts) && api.sys.svc.SvcRest?
    ensures ServicePassDid(api.cfg, api.replies, old(api.calls), old(api.sys).store, api.sys.store, old(api.sys).svc,
                           acts, answer)
  {
    var rev := view.remote;
    if svc.observed != svc.generation || !Discovered(svc.generation, svc.Status()) {
      if rev.None? {
        svc.MarkFailed(RevisionUnresolved);
        answer, acts := PatchStatus(api, svc, orig);
        return;
      }
    } else {
      if rev.None? { // pollForCommit could not reach the remote
        answer, acts := PatchStatus(api, svc, orig);
        return;
      }
      if rev.value == svc.latestRevision {
        rev := None;
      }
    }
    if rev.Some? {
      answer, acts := Discover(api, svc, rev.value, view, orig);
    } else {
      answer, acts := KeepOwnCI(api, svc, view.plugins.value, orig);
    }
  }

  lemma ReasonOfPass(cfg: Config, replies: Replies, k: nat, was: Store, st: Store, orig: ServiceVersion, i: nat,
                     sha: string, plugins: seq<PluginRef>, d: Discovery, acts: seq<Effect>, answer: Answer)
    requires i < |st.svcs| && st.svcs[i] == orig && GaveReason(replies, k, st, orig, i, d, acts, answer)
    ensures ServicePassDid(cfg, replies, k, was, st, DiscoveredAt(cfg, orig, i, sha, plugins, d), acts, answer)
  {
  }

  lemma FinishOfPass(cfg: Config, replies: Replies, k: nat, was: Store, now: Store, st: Store, orig: ServiceVersion,
                     i: nat, target: Target, found: bool, s: ServiceStatus, acts: seq<Effect>, answer: Answer)
    requires i < |st.svcs| && st.svcs[i] == orig && !replies(k).lost && !replies(k).refused
    requires s == if found then Recorded(cfg, orig, target) else orig.status.(ciRef := cfg.ci)
    requires Later(was, now) && ServiceFinished(cfg, replies, k + 1, now, st, i, s, acts, answer)
    ensures ServicePointed(cfg, replies, k, was, st, i, target, found, [EnsuredCI(i, target)] + acts, answer)
  {
    FinishedSince(cfg, replies, k + 1, was, now, st, i, s, acts, answer);
    assert ([EnsuredCI(i, target)] + acts)[1..] == acts;
  }

  /** The end of a pass whose call start pointed the CI. */
  method EndOfPass(api: Server, svc: ServiceCopy, ghost target: Target, ghost found: bool, ghost orig: ServiceVersion,
                   ghost start: nat, ghost was: Store)
    returns (answer: Answer, ghost acts: seq<Effect>)
    requires api.Valid() && CopyOf(api, svc, orig)
    requires svc.Status() == if found then Recorded(api.cfg, orig, target) else orig.status.(ciRef := api.cfg.ci)
    requires api.sys.svc == SvcSyncing(svc.version, svc.Status())
    requires api.calls == start + 1 && !api.replies(start).lost && !api.replies(start).refused
    requires Later(was, api.sys.store)
    modifies api, svc
    ensures api.Kept(SvcActor, answer.Lost?, acts) && api.sys.svc.SvcRest?
    ensures ServicePointed(api.cfg, api.replies, start, was, api.sys.store, svc.version, target, found,
                           [EnsuredCI(svc.version, target)] + acts, answer)
  {
    ghost var now, status := api.sys.store, svc.Status();
    answer, acts := Finish(api, svc, orig);
    FinishOfPass(api.cfg, api.replies, start, was, now, api.sys.store, orig, svc.version, target, found, status,
                 acts, answer);
  }

  /** A new commit, or a first discovery, to the end of the pass. */
  method Discover(api: Server, svc: ServiceCopy, sha: string, view: SvcView, ghost orig: ServiceVersion)
    returns (answer: Answer, ghost acts: seq<Effect>)
    requires api.Valid() && CopyOf(api, svc, orig) && svc.Status() == orig.status
    requires view.copy == svc.version && view.plugins.Some?
    requires api.sys.svc == DiscoveredAt(api.cfg, orig, svc.version, sha, view.plugins.value, view.discovery)
    modifies api, svc
    ensures api.Kept(SvcActor, answer.Lost?, acts) && api.sys.svc.SvcRest?
    ensures ServicePassDid(api.cfg, api.replies, old(api.calls), old(api.sys).store, api.sys.store, old(api.sys).svc,
                           acts, answer)
  {
    ghost var before, was, start := api.svcDone, api.sys.store, api.calls;
    var completed: bool;
    completed, answer, acts := DiscoverAndBuild(api, svc, sha, view, orig);
    if !completed {
      ReasonOfPass(api.cfg, api.replies, start, was, api.sys.store, orig, svc.version, sha, view.plugins.value,
                   view.discovery, acts, answer);
      return;
    }
    ghost var first := acts;
    assert api.svcDone == before + first + [];
    answer, acts := EndOfPass(api, svc, first[0].target, true, orig, start, was);
    Then(before, first, acts, if answer.Lost? then [GaveUp] else []);
    acts := first + acts;
  }

  /** ensureOwnCI, to the end of the pass. */
  method KeepOwnCI(api: Server, svc: ServiceCopy, plugins: seq<PluginRef>, ghost orig: ServiceVersion)
    returns (answer: Answer, ghost acts: seq<Effect>)
    requires api.Valid() && CopyOf(api, svc, orig) && svc.Status() == orig.status
    requires api.sys.svc ==
             SvcPointing(svc.version, Target(svc.language, svc.latestRevision, svc.dockerfile, plugins), false)
    modifies api, svc
    ensures api.Kept(SvcActor, answer.Lost?, acts) && api.sys.svc.SvcRest?
    ensures ServicePassDid(api.cfg, api.replies, old(api.calls), old(api.sys).store, api.sys.store, old(api.sys).svc,
                           acts, answer)
  {
    ghost var before, was, start := api.svcDone, api.sys.store, api.calls;
    var target := Target(svc.language, svc.latestRevision, svc.dockerfile, plugins);
    answer, acts := EnsureCI(api, svc, target, false, orig);
    if !answer.Done? {
      return;
    }
    svc.ciRef := api.cfg.ci;
    ghost var first := acts;
    assert api.svcDone == before + first + [];
    answer, acts := EndOfPass(api, svc, target, false, orig, start, was);
    Then(before, first, acts, if answer.Lost? then [GaveUp] else []);
    acts := first + acts;
  }
}
