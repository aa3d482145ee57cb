/** The CI reconciler, written as the program it is: it changes its copy of
    the CI in place and talks to the API server, with anyone else acting
    between two calls. Each call is proved to be the step that the place of
    the pass asks for, so every execution is a run of the step system. */
module CIReconciler {
  import opened Common
  import opened Objects
  import opened System
  import opened Effects
  import opened Api

  /** The reconciler's own copy of a CI, read from the cache. */
  class CICopy {
    const version: nat
    const generation: nat
    const spec: CISpec
    var phase: CIPhase
    var reason: CIReason
    var revision: string
    var image: string
    var buildCount: nat
    var buildPod: Option<nat>
    var buildingRevision: string
    var observed: nat

    constructor (version: nat, ci: CIVersion)
      ensures this.version == version && generation == ci.generation && spec == ci.spec
      ensures Status() == ci.status
    {
      this.version := version;
      generation := ci.generation;
      spec := ci.spec;
      phase := ci.status.phase;
      reason := ci.status.reason;
      revision := ci.status.revision;
      image := ci.status.image;
      buildCount := ci.status.buildCount;
      buildPod := ci.status.buildPod;
      buildingRevision := ci.status.buildingRevision;
      observed := ci.status.observed;
    }

    function Status(): CIStatus
      reads this
    {
      CIStatus(phase, reason, revision, image, buildCount, buildPod, buildingRevision, observed)
    }

    /** setCIPhase. */
    method SetPhase(p: CIPhase)
      modifies this
      ensures Status() == old(Status()).(phase := p, reason := PhaseReason(p))
    {
      phase := p;
      reason := PhaseReason(p);
    }

    /** markCIFailed. */
    method MarkFailed(r: CIReason)
      modifies this
      ensures Status() == old(Status()).(phase := CIFailed, reason := r, observed := generation)
    {
      phase := CIFailed;
      observed := generation;
      reason := r;
    }

    /** A success, with its image. */
    method Succeed(builtImage: string)
      modifies this
      ensures Status() == old(Status()).(phase := CISucceeded, reason := PhaseReason(CISucceeded),
              image := builtImage, revision := spec.revision, buildCount := old(buildCount) + 1)
    {
      phase := CISucceeded;
      image := builtImage;
      revision := spec.revision;
      buildCount := buildCount + 1;
      reason := PhaseReason(CISucceeded);
    }
  }

  /** copy is the reconciler's copy of a version that the store has. */
  predicate CopyOf(api: Server, copy: CICopy, orig: CIVersion)
    reads api, copy
  {
    && copy.version < |api.sys.store.cis|
    && api.sys.store.cis[copy.version] == orig
    && copy.generation == orig.generation
    && copy.spec == orig.spec
  }

  /** The status patch with the optimistic lock. */
  method PatchStatus(api: Server, copy: CICopy, ghost orig: CIVersion) returns (answer: Answer, ghost acts: seq<Effect>)
    requires api.Valid() && api.sys.ci.CIPatching? && api.sys.ci.copy == copy.version
    requires CopyOf(api, copy, orig) && copy.Status() == Apply(api.sys.ci.write, orig)
    modifies api
    ensures api.Kept(CIActor, answer.Lost?, acts) && !answer.Refused?
    ensures api.calls == old(api.calls) + 1 && (answer.Lost? <==> api.replies(old(api.calls)).lost)
    ensures acts == if answer.Done? then [WroteCI(copy.version, old(api.sys).ci.write)] else []
    ensures answer.Done? ==> api.sys.store.cis != [] && Last(api.sys.store.cis) == orig.(status := copy.Status())
    ensures answer.Conflict? ==> copy.version + 1 < |api.sys.store.cis|
    ensures api.sys.ci == if answer.Done? && old(api.sys).ci.write.ToSucceeded?
                          then CIEnsuring(copy.version, old(api.sys).ci.svc) else CIRest
  {
    acts := [];
    var r := api.Turn(CIActor);
    if r.lost {
      return Lost, acts;
    }
    answer := if copy.version == |api.sys.store.cis| - 1 then Done else Conflict;
    acts := CIEffect(api.cfg, api.sys, CIPatch);
    api.Move(CIActor, ByCI(CIPatch));
  }

  method DeleteBuildPods(api: Server) returns (answer: Answer, ghost acts: seq<Effect>)
    requires api.Valid() && api.sys.ci.CIDeleting?
    modifies api
    ensures api.Kept(CIActor, answer.Lost?, acts) && (answer.Done? || answer.Lost?)
    ensures api.calls == old(api.calls) + 1 && (answer.Lost? <==> api.replies(old(api.calls)).lost)
    ensures if answer.Done? then |acts| == 1 && acts[0].MarkedPods? else acts == []
    ensures answer.Done? ==> forall p | 0 <= p < |api.sys.store.pods| :: api.sys.store.pods[p].deleting
    ensures answer.Done? ==>
              var was := old(api.sys).ci;
              api.sys.ci == if was.allowed then CICreating(was.copy, was.svc)
                            else CIPatching(was.copy, ToFailed(SecretNotAllowed), 0)
  {
    acts := [];
    var r := api.Turn(CIActor);
    if r.lost {
      return Lost, acts;
    }
    acts := CIEffect(api.cfg, api.sys, CIDeletePods);
    api.Move(CIActor, ByCI(CIDeletePods));
    answer := Done;
  }

  /** What a create left, if it was not lost: the last Pod is made from the two
      copies, and known unless the answer was an error. */
  predicate CreateDid(r: Reply, st: Store, i: nat, j: nat, pod: Option<nat>, acts: seq<Effect>) {
    if r.lost || r.create == NotCreated then pod.None? && acts == []
    else
      && st.pods != [] && i < |st.cis| && j < |st.svcs|
      && acts == [CreatedPod(i, j, |st.pods| - 1)]
      && Last(st.pods) == BuildPod(st.cis[i].spec, st.svcs[j].spec)
      && pod == if r.create == Created then Some(|st.pods| - 1) else None
  }

  lemma CreateEffect(cfg: Config, s: State, r: Reply)
    requires s.ci.CICreating? && s.ci.copy < |s.store.cis| && s.ci.svc < |s.store.svcs| && !r.lost
    ensures
      var t, i := CIStep(cfg, s, CICreatePod(r.create)), s.ci.copy;
      var pod := if r.create == Created then Some(|s.store.pods|) else None;
      && CreateDid(r, t.store, i, s.ci.svc, pod, CIEffect(cfg, s, CICreatePod(r.create)))
      && t.ci == CIPatching(i, if pod.Some? then ToBuilding(pod.value) else ToRejected, 0)
  {
  }

  /** Creates the build Pod; None for an error answer, also where the Pod was
      created nonetheless. */
  method CreatePod(api: Server, copy: CICopy, svc: nat, revision: string, image: string, ghost orig: CIVersion)
    returns (answer: Answer, pod: Option<nat>, ghost acts: seq<Effect>)
    requires api.Valid() && api.sys.ci == CICreating(copy.version, svc) && CopyOf(api, copy, orig)
    requires svc < |api.sys.store.svcs|
    requires revision == copy.spec.revision && image == ImageRef(copy.spec, revision)
    modifies api
    ensures api.Kept(CIActor, answer.Lost?, acts) && (answer.Done? || answer.Lost?)
    ensures api.calls == old(api.calls) + 1 && (answer.Lost? <==> api.replies(old(api.calls)).lost)
    ensures CreateDid(api.replies(old(api.calls)), api.sys.store, copy.version, svc, pod, acts)
    ensures answer.Done? ==>
              api.sys.ci == CIPatching(copy.version, if pod.Some? then ToBuilding(pod.value) else ToRejected, 0)
  {
    pod, acts := None, [];
    var r := api.Turn(CIActor);
    if r.lost {
      return Lost, None, acts;
    }
    if r.create == Created {
      pod := Some(|api.sys.store.pods|);
    }
    acts := CIEffect(api.cfg, api.sys, CICreatePod(r.create));
    CreateEffect(api.cfg, api.sys, r);
    api.Move(CIActor, ByCI(CICreatePod(r.create)));
    answer := Done;
  }

  /** Pod p as the store has it now. */
  predicate PodIs(api: Server, p: Option<nat>, seen: PodSeen)
    reads api
  {
    var pods := api.sys.store.pods;
    if seen.PodSeen? then p.Some? && p.value < |pods| && !pods[p.value].gone && pods[p.value].phase == seen.phase
    else p.Some? && p.value < |pods| ==> pods[p.value].gone
  }

  /** Reads the Pod around the cache. */
  method GetLivePod(api: Server, copy: CICopy, ghost orig: CIVersion) returns (answer: Answer, seen: PodSeen)
    requires api.Valid() && api.sys.ci.CIConfirming? && api.sys.ci.copy == copy.version
    requires CopyOf(api, copy, orig) && copy.buildPod == orig.status.buildPod
    modifies api
    ensures api.Kept(CIActor, answer.Lost?, []) && (answer.Done? || answer.Lost?)
    ensures api.calls == old(api.calls) + 1 && (answer.Lost? <==> api.replies(old(api.calls)).lost)
    ensures answer.Done? ==> api.ciDone == old(api.ciDone)
    ensures answer.Done? ==>
              && PodIs(api, copy.buildPod, seen)
              && api.sys.ci == match seen
                               case PodUnseen => CIComparing(copy.version)
                               case PodSeen(phase) => CIPatching(copy.version, FollowWrite(phase), old(api.sys).ci.svc)
  {
    seen := PodUnseen;
    var r := api.Turn(CIActor);
    if r.lost {
      return Lost, PodUnseen;
    }
    var pods := api.sys.store.pods;
    if copy.buildPod.Some? && copy.buildPod.value < |pods| && !pods[copy.buildPod.value].gone {
      seen := PodSeen(pods[copy.buildPod.value].phase);
    }
    api.Move(CIActor, ByCI(CIConfirmPod));
    answer := Done;
  }

  /** Reads the CI around the cache: the Pod it names now. */
  method GetLiveBuildPod(api: Server, copy: CICopy, ghost orig: CIVersion) returns (answer: Answer, pod: Option<nat>)
    requires api.Valid() && api.sys.ci == CIComparing(copy.version)
    requires CopyOf(api, copy, orig) && copy.buildPod == orig.status.buildPod
    modifies api
    ensures api.Kept(CIActor, answer.Lost?, []) && (answer.Done? || answer.Lost?)
    ensures api.calls == old(api.calls) + 1 && (answer.Lost? <==> api.replies(old(api.calls)).lost)
    ensures answer.Done? ==> api.ciDone == old(api.ciDone)
    ensures answer.Done? ==>
              && api.sys.store.cis != [] && pod == Last(api.sys.store.cis).status.buildPod
              && api.sys.ci == if pod == copy.buildPod then CIPatching(copy.version, ToLost, 0) else CIRest
  {
    pod := None;
    var r := api.Turn(CIActor);
    if r.lost {
      return Lost, None;
    }
    pod := Last(api.sys.store.cis).status.buildPod;
    api.Move(CIActor, ByCI(CICompare));
    answer := Done;
  }

  /** CreateOrUpdate of the CD, from whichever copy the cache has: when it is
      done, some CD version has all that the CI and Service ask of it. */
  method EnsureCD(api: Server) returns (answer: Answer, ghost acts: seq<Effect>)
    requires api.Valid() && api.sys.ci.CIEnsuring?
    requires api.sys.ci.copy < |api.sys.store.cis| && api.sys.ci.svc < |api.sys.store.svcs|
    modifies api
    ensures api.Kept(CIActor, answer.Lost?, acts)
    ensures CDEnsured(api.replies(old(api.calls)), api.sys.store, old(api.sys).ci.copy, old(api.sys).ci.svc, acts,
                      answer)
    ensures forall e | e in acts :: Holds(api.cfg, api.sys.store, e)
    ensures api.sys.ci.CIRest?
  {
    acts := [];
    var r := api.Turn(CIActor);
    if r.lost {
      return Lost, acts;
    }
    var st := api.sys.store;
    var seen := CachedIn(st.cds, r.cached);
    var put := PutCD(api.cfg, st.cds, seen, st.cis[api.sys.ci.copy].spec, st.svcs[api.sys.ci.svc].spec);
    acts := CIEffect(api.cfg, api.sys, CIEnsureCD(seen));
    CIEffectHolds(api.cfg, api.sys, CIEnsureCD(seen));
    api.Move(CIActor, ByCI(CIEnsureCD(seen)));
    answer := if put.None? then Conflict else Done;
  }

  /** The rest of buildPodOf, for a Pod that the cache has not: the Pod as the
      store has it, or that it is gone while the CI still names it, or None
      when the copy names another Pod than the CI does now. */
  method FindPod(api: Server, copy: CICopy, svc: nat, ghost orig: CIVersion)
    returns (answer: Answer, pod: Option<PodSeen>)
    requires api.Valid() && CopyOf(api, copy, orig) && svc < |api.sys.store.svcs|
    requires copy.Status() == orig.status
    requires api.sys.ci == CIConfirming(copy.version, svc)
    modifies api
    ensures api.Kept(CIActor, answer.Lost?, []) && (answer.Done? || answer.Lost?)
    ensures answer.Done? ==> api.ciDone == old(api.ciDone)
    ensures answer.Lost? ==> pod.None?
    ensures answer.Lost? <==>
              api.replies(old(api.calls)).lost ||
              (api.calls == old(api.calls) + 2 && api.replies(old(api.calls) + 1).lost)
    ensures answer.Done? && pod.Some? && pod.value.PodSeen? ==>
              && PodIs(api, copy.buildPod, pod.value)
              && api.sys.ci == CIPatching(copy.version, FollowWrite(pod.value.phase), svc)
              && api.calls == old(api.calls) + 1
    ensures answer.Done? && pod.Some? && pod.value.PodUnseen? ==>
              && Last(api.sys.store.cis).status.buildPod == copy.buildPod
              && api.sys.ci == CIPatching(copy.version, ToLost, 0)
              && api.calls == old(api.calls) + 2
    ensures answer.Done? && pod.None? ==>
              && Last(api.sys.store.cis).status.buildPod != copy.buildPod && api.sys.ci.CIRest?
              && api.calls == old(api.calls) + 2
  {
    var seen: PodSeen;
    answer, seen := GetLivePod(api, copy, orig);
    if answer.Lost? {
      return answer, None;
    }
    if seen.PodSeen? {
      return answer, Some(seen);
    }
    var named: Option<nat>;
    answer, named := GetLiveBuildPod(api, copy, orig);
    pod := if answer.Lost? || named != copy.buildPod then None else Some(PodUnseen);
  }

  /** A success is recorded, and then the CD ensured. */
  method RecordSuccess(api: Server, copy: CICopy, svc: nat, image: string, ghost orig: CIVersion)
    returns (answer: Answer, ghost acts: seq<Effect>)
    requires api.Valid() && CopyOf(api, copy, orig) && svc < |api.sys.store.svcs|
    requires copy.Status() == orig.status && image == ImageRef(orig.spec, orig.spec.revision)
    requires api.sys.ci == CIPatching(copy.version, ToSucceeded, svc)
    modifies api, copy
    ensures api.Kept(CIActor, answer.Lost?, acts) && api.sys.ci.CIRest?
    ensures CIWritten(api.replies, old(api.calls), api.sys.store, copy.version, svc, ToSucceeded, acts, answer)
    ensures copy.Status() == Apply(ToSucceeded, orig)
  {
    copy.Succeed(image);
    ghost var before, start := api.ciDone, api.calls;
    answer, acts := PatchStatus(api, copy, orig);
    if !answer.Done? {
      return;
    }
    ghost var first := acts;
    assert api.ciDone == before + first + [];
    answer, acts := EnsureCD(api);
    Then(before, first, acts, if answer.Lost? then [GaveUp] else []);
    SuccessWritten(api.replies, start, api.sys.store, copy.version, svc, acts, answer);
    acts := first + acts;
  }

  lemma SuccessWritten(replies: Replies, k: nat, st: Store, i: nat, j: nat, acts: seq<Effect>, answer: Answer)
    requires !replies(k).lost && CDEnsured(replies(k + 1), st, i, j, acts, answer)
    ensures CIWritten(replies, k, st, i, j, ToSucceeded, [WroteCI(i, ToSucceeded)] + acts, answer)
  {
    assert ([WroteCI(i, ToSucceeded)] + acts)[1..] == acts;
  }

  /** The outcome of the build Pod, and on success the CD. */
  method RecordOutcome(api: Server, copy: CICopy, svc: nat, phase: PodPhase, image: string, ghost orig: CIVersion)
    returns (answer: Answer, ghost acts: seq<Effect>)
    requires api.Valid() && CopyOf(api, copy, orig) && svc < |api.sys.store.svcs|
    requires copy.Status() == orig.status && image == ImageRef(orig.spec, orig.spec.revision)
    requires api.sys.ci == CIPatching(copy.version, FollowWrite(phase), svc)
    modifies api, copy
    ensures api.Kept(CIActor, answer.Lost?, acts) && api.sys.ci.CIRest?
    ensures CIWritten(api.replies, old(api.calls), api.sys.store, copy.version, svc, FollowWrite(phase), acts, answer)
    ensures copy.Status() == Apply(FollowWrite(phase), orig)
  {
    if phase == PodSucceeded {
      answer, acts := RecordSuccess(api, copy, svc, image, orig);
      return;
    }
    if phase == PodRunning {
      copy.SetPhase(CIBuilding);
    } else {
      copy.MarkFailed(BuildFailed);
    }
    answer, acts := PatchStatus(api, copy, orig);
  }

  /** The Pod was found gone, and the CI still names it. */
  method RecordLoss(api: Server, copy: CICopy, ghost orig: CIVersion) returns (answer: Answer, ghost acts: seq<Effect>)
    requires api.Valid() && CopyOf(api, copy, orig) && copy.Status() == orig.status
    requires api.sys.ci == CIPatching(copy.version, ToLost, 0)
    modifies api, copy
    ensures api.Kept(CIActor, answer.Lost?, acts) && api.sys.ci.CIRest?
    ensures CIWritten(api.replies, old(api.calls), api.sys.store, copy.version, 0, ToLost, acts, answer)
    ensures copy.Status() == Apply(ToLost, orig)
  {
    copy.MarkFailed(BuildPodLost);
    answer, acts := PatchStatus(api, copy, orig);
  }

  /** followBuild, for a Pod that the cache has not. */
  method FollowMissing(api: Server, copy: CICopy, svc: nat, image: string, ghost orig: CIVersion)
    returns (answer: Answer, ghost acts: seq<Effect>)
    requires api.Valid() && CopyOf(api, copy, orig) && svc < |api.sys.store.svcs|
    requires copy.Status() == orig.status && image == ImageRef(orig.spec, orig.spec.revision)
    requires api.sys.ci == CIConfirming(copy.version, svc)
    modifies api, copy
    ensures api.Kept(CIActor, answer.Lost?, acts) && api.sys.ci.CIRest?
    ensures BuildFollowed(api.replies, old(api.calls), api.sys.store, copy.version, svc, acts, answer)
  {
    ghost var before := api.ciDone;
    var pod: Option<PodSeen>;
    acts := [];
    answer, pod := FindPod(api, copy, svc, orig);
    if pod.None? { // a lost call, or a stale copy: a fresh one follows
      assert answer.Done? ==> api.sys.store.cis[|api.sys.store.cis| - 1].status.buildPod != orig.status.buildPod;
      return;
    }
    if pod.value.PodUnseen? {
      answer, acts := RecordLoss(api, copy, orig);
    } else {
      answer, acts := RecordOutcome(api, copy, svc, pod.value.phase, image, orig);
    }
  }

  /** followBuild. */
  method FollowBuild(api: Server, copy: CICopy, svc: nat, seen: PodSeen, image: string, ghost orig: CIVersion)
    returns (answer: Answer, ghost acts: seq<Effect>)
    requires api.Valid() && CopyOf(api, copy, orig) && svc < |api.sys.store.svcs|
    requires copy.Status() == orig.status && image == ImageRef(orig.spec, orig.spec.revision)
    requires api.sys.ci == match seen
                           case PodUnseen => CIConfirming(copy.version, svc)
                           case PodSeen(phase) => CIPatching(copy.version, FollowWrite(phase), svc)
    modifies api, copy
    ensures api.Kept(CIActor, answer.Lost?, acts) && api.sys.ci.CIRest?
    ensures CIPassDid(api.replies, old(api.calls), api.sys.store, old(api.sys).ci, acts, answer)
  {
    if seen.PodUnseen? {
      answer, acts := FollowMissing(api, copy, svc, image, orig);
    } else {
      answer, acts := RecordOutcome(api, copy, svc, seen.phase, image, orig);
    }
  }

  /** deleteBuildPods, the Secret check and the Pod: a new build. */
  method StartBuild(api: Server, copy: CICopy, svc: nat, allowed: bool, image: string, ghost orig: CIVersion)
    returns (answer: Answer, ghost acts: seq<Effect>)
    requires api.Valid() && CopyOf(api, copy, orig) && image == ImageRef(orig.spec, orig.spec.revision)
    requires copy.Status() == orig.status.(phase := CIResolving, reason := PhaseReason(CIResolving))
    requires api.sys.ci == CIDeleting(copy.version, svc, allowed) && svc < |api.sys.store.svcs|
    modifies api, copy
    ensures api.Kept(CIActor, answer.Lost?, acts) && api.sys.ci.CIRest?
    ensures BuildStarted(api.replies, old(api.calls), api.sys.store, copy.version, svc, allowed, acts, answer)
  {
    ghost var before := api.ciDone;
    answer, acts := DeleteBuildPods(api);
    if answer.Lost? {
      return;
    }
    ghost var first := acts;
    assert api.ciDone == before + first + [];
    if !allowed {
      answer, acts := FailStart(api, copy, SecretNotAllowed, orig);
    } else {
      answer, acts := RunPod(api, copy, svc, image, orig);
    }
    Then(before, first, acts, if answer.Lost? then [GaveUp] else []);
    assert (first + acts)[1..] == acts;
    acts := first + acts;
  }

  /** Fails the build for this revision and generation before it started. */
  method FailStart(api: Server, copy: CICopy, reason: CIReason, ghost orig: CIVersion)
    returns (answer: Answer, ghost acts: seq<Effect>)
    requires api.Valid() && CopyOf(api, copy, orig)
    requires api.sys.ci.CIPatching? && api.sys.ci.copy == copy.version && api.sys.ci.write == ToFailed(reason)
    requires copy.Status() == orig.status.(phase := copy.phase, reason := copy.reason)
    modifies api, copy
    ensures api.Kept(CIActor, answer.Lost?, acts) && api.sys.ci.CIRest?
    ensures CIWritten(api.replies, old(api.calls), api.sys.store, copy.version, old(api.sys).ci.svc, ToFailed(reason),
                      acts, answer)
    ensures copy.Status() == Apply(ToFailed(reason), orig)
  {
    copy.MarkFailed(reason);
    copy.buildingRevision := copy.spec.revision;
    copy.observed := copy.generation;
    answer, acts := PatchStatus(api, copy, orig);
  }

  /** Records the new Pod, or why there is none. */
  method RecordPod(api: Server, copy: CICopy, pod: Option<nat>, ghost orig: CIVersion)
    returns (answer: Answer, ghost acts: seq<Effect>)
    requires api.Valid() && CopyOf(api, copy, orig)
    requires api.sys.ci == CIPatching(copy.version, if pod.Some? then ToBuilding(pod.value) else ToRejected, 0)
    requires copy.Status() == orig.status.(phase := copy.phase, reason := copy.reason)
    modifies api, copy
    ensures api.Kept(CIActor, answer.Lost?, acts) && api.sys.ci.CIRest?
    ensures CIWritten(api.replies, old(api.calls), api.sys.store, copy.version, 0,
                      if pod.Some? then ToBuilding(pod.value) else ToRejected, acts, answer)
    ensures copy.Status() == Apply(if pod.Some? then ToBuilding(pod.value) else ToRejected, orig)
  {
    if pod.None? {
      var observed := copy.observed;
      copy.MarkFailed(PodCreateFailed);
      copy.observed := observed;
    } else {
      copy.buildPod := pod;
      copy.buildingRevision := copy.spec.revision;
      copy.observed := copy.generation;
      copy.SetPhase(CIBuilding);
    }
    answer, acts := PatchStatus(api, copy, orig);
  }

  /** Creates the build Pod and records it, or that there was an error: then
      the revision and generation stay unobserved. */
  method RunPod(api: Server, copy: CICopy, svc: nat, image: string, ghost orig: CIVersion)
    returns (answer: Answer, ghost acts: seq<Effect>)
    requires api.Valid() && CopyOf(api, copy, orig) && image == ImageRef(orig.spec, orig.spec.revision)
    requires api.sys.ci == CICreating(copy.version, svc) && svc < |api.sys.store.svcs|
    requires copy.Status() == orig.status.(phase := copy.phase, reason := copy.reason)
    modifies api, copy
    ensures api.Kept(CIActor, answer.Lost?, acts) && api.sys.ci.CIRest?
    ensures BuildRun(api.replies, old(api.calls), api.sys.store, copy.version, svc, acts, answer)
  {
    ghost var before := api.ciDone;
    var pod: Option<nat>;
    answer, pod, acts := CreatePod(api, copy, svc, copy.spec.revision, image, orig);
    if answer.Lost? {
      return;
    }
    ghost var first := acts;
    assert api.ciDone == before + first + [];
    answer, acts := RecordPod(api, copy, pod, orig);
    Then(before, first, acts, if answer.Lost? then [GaveUp] else []);
    assert if first == [] then first + acts == acts else (first + acts)[1..] == acts;
    acts := first + acts;
  }

  /** The informer cache answers the reads of the pass with this view. */
  method ReadCache(api: Server, view: CIView) returns (copy: CICopy)
    requires api.Valid() && api.sys.ci.CIRest? && CIViewPossible(api.sys.store, view)
    modifies api
    ensures api.Kept(CIActor, false, [BeganCI(view)]) && fresh(copy)
    ensures api.calls == old(api.calls)
    ensures api.sys == old(api.sys).(ci := DecideCI(api.cfg, old(api.sys).store, view))
    ensures copy.version == view.copy
    ensures CopyOf(api, copy, old(api.sys).store.cis[view.copy])
    ensures copy.Status() == old(api.sys).store.cis[view.copy].status
  {
    copy := new CICopy(view.copy, api.sys.store.cis[view.copy]);
    api.Take(ByCI(CIBegin(view)));
  }

  /** reconcile: one pass, whatever everyone else does meanwhile. It begins with
      this view, does just what a pass does that decides as DecideCI does on it
      and meets these replies, and gives up only when a call is lost. */
  method Reconcile(api: Server, view: CIView) returns (answer: Answer, ghost acts: seq<Effect>)
    requires api.Valid() && api.sys.ci.CIRest? && CIViewPossible(api.sys.store, view)
    modifies api
    ensures api.sys.ci.CIRest?
    ensures api.Kept(CIActor, answer.Lost?, [BeganCI(view)] + acts)
    ensures CIPassDid(api.replies, old(api.calls), api.sys.store, DecideCI(api.cfg, old(api.sys).store, view), acts,
                      answer)
  {
    ghost var before := api.ciDone;
    var ci := ReadCache(api, view);
    ghost var orig := old(api.sys).store.cis[view.copy];
    answer, acts := Pass(api, ci, view, orig);
    Then(before, [BeganCI(view)], acts, if answer.Lost? then [GaveUp] else []);
  }

  /** Waits for the Service, or for its discovery. */
  method Wait(api: Server, ci: CICopy, ghost orig: CIVersion) returns (answer: Answer, ghost acts: seq<Effect>)
    requires api.Valid() && CopyOf(api, ci, orig) && ci.Status() == orig.status
    requires api.sys.ci.CIPatching? && api.sys.ci.copy == ci.version && api.sys.ci.write == ToWaiting
    modifies api, ci
    ensures api.Kept(CIActor, answer.Lost?, acts) && api.sys.ci.CIRest?
    ensures CIPassDid(api.replies, old(api.calls), api.sys.store, old(api.sys).ci, acts, answer)
  {
    ci.SetPhase(CIWaiting);
    answer, acts := PatchStatus(api, ci, orig);
  }

  /** The pass after its cached reads. */
  method Pass(api: Server, ci: CICopy, view: CIView, ghost orig: CIVersion)
    returns (answer: Answer, ghost acts: seq<Effect>)
    requires api.Valid() && CIViewPossible(api.sys.store, view) && ci.version == view.copy
    requires CopyOf(api, ci, orig) && ci.Status() == orig.status
    requires api.sys.ci == DecideCI(api.cfg, api.sys.store, view)
    modifies api, ci
    ensures api.Kept(CIActor, answer.Lost?, acts) && api.sys.ci.CIRest?
    ensures CIPassDid(api.replies, old(api.calls), api.sys.store, old(api.sys).ci, acts, answer)
  {
    if view.svc.None? {
      answer, acts := Wait(api, ci, orig);
      return;
    }
    if ci.spec.revision == "" || ci.spec.dockerfile == "" {
      answer, acts := Wait(api, ci, orig);
      return;
    }
    if !ValidBuild(api.cfg, ci.spec, api.sys.store.svcs[view.svc.value].spec) {
      answer, acts := FailStart(api, ci, InvalidSpec, orig);
      return;
    }
    answer, acts := Proceed(api, ci, view, orig);
  }

  /** The pass over a CI that may be built. */
  method Proceed(api: Server, ci: CICopy, view: CIView, ghost orig: CIVersion)
    returns (answer: Answer, ghost acts: seq<Effect>)
    requires api.Valid() && CIViewPossible(api.sys.store, view) && ci.version == view.copy && view.svc.Some?
    requires CopyOf(api, ci, orig) && ci.Status() == orig.status
    requires orig.spec.revision != "" && orig.spec.dockerfile != ""
    requires ValidBuild(api.cfg, orig.spec, api.sys.store.svcs[view.svc.value].spec)
    requires api.sys.ci == DecideCI(api.cfg, api.sys.store, view)
    modifies api, ci
    ensures api.Kept(CIActor, answer.Lost?, acts) && api.sys.ci.CIRest?
    ensures CIPassDid(api.replies, old(api.calls), api.sys.store, old(api.sys).ci, acts, answer)
  {
    answer, acts := Done, [];
    var sha := ci.spec.revision;
    var image := ImageRef(ci.spec, sha);
    var current := ci.buildingRevision == sha && ci.observed == ci.generation;
    if current && ci.buildPod.Some? && ci.phase == CIBuilding {
      answer, acts := FollowBuild(api, ci, view.svc.value, view.pod, image, orig);
      return;
    }
    if current && (ci.phase == CISucceeded || ci.phase == CIFailed) {
      if ci.phase == CISucceeded {
        answer, acts := EnsureCD(api);
      }
      return;
    }
    answer, acts := Build(api, ci, view, image, orig);
  }

  /** A new build, from the phase to the Pod. */
  method Build(api: Server, ci: CICopy, view: CIView, image: string, ghost orig: CIVersion)
    returns (answer: Answer, ghost acts: seq<Effect>)
    requires api.Valid() && CopyOf(api, ci, orig) && ci.version == view.copy && ci.Status() == orig.status
    requires image == ImageRef(orig.spec, orig.spec.revision)
    requires view.svc.Some? && view.svc.value < |api.sys.store.svcs|
    requires api.sys.ci == match view.prep
                           case NoCredentials => CIPatching(view.copy, ToFailed(RegistryCredentials), view.svc.value)
                           case NoPlugin => CIPatching(view.copy, ToFailed(PluginMissing), view.svc.value)
                           case Prepared => CIDeleting(view.copy, view.svc.value, view.allowed)
    modifies api, ci
    ensures api.Kept(CIActor, answer.Lost?, acts) && api.sys.ci.CIRest?
    ensures CIPassDid(api.replies, old(api.calls), api.sys.store, old(api.sys).ci, acts, answer)
  {
    ci.SetPhase(CIResolving);
    if !view.prep.Prepared? {
      answer, acts :=
        FailStart(api, ci, if view.prep.NoCredentials? then RegistryCredentials else PluginMissing, orig);
      return;
    }
    answer, acts := StartBuild(api, ci, view.svc.value, view.allowed, image, orig);
  }
}
