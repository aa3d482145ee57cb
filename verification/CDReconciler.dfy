/** The CD reconciler as a program; see CIReconciler for the scheme. It reads
    its own object fresh, and writes its status without a lock. */
module CDReconciler {
  import opened Common
  import opened Objects
  import opened System
  import opened Fields
  import opened Effects
  import opened Api

  class CDCopy {
    const spec: CDSpec
    var phase: CDPhase
    var revision: string
    var image: string

    constructor (v: CDVersion)
      ensures spec == v.spec && Status() == v.status
    {
      spec := v.spec;
      phase := v.status.phase;
      revision := v.status.revision;
      image := v.status.image;
    }

    function Status(): CDStatus
      reads this
    {
      CDStatus(phase, revision, image)
    }

    /** setCDCondition. */
    method SetCondition(p: CDPhase)
      modifies this
      ensures Status() == old(Status()).(phase := p)
    {
      phase := p;
    }
  }

  /** deployFailed: looks for the condition until it finds one. */
  method DeployFailed(d: Deployment) returns (failed: bool)
    ensures failed <==> Stuck(d.status)
    ensures failed <==> Condition("Progressing", "False", "ProgressDeadlineExceeded") in d.status.conditions
  {
    var conditions := d.status.conditions;
    for i := 0 to |conditions|
      invariant forall j | 0 <= j < i :: !DeadlineExceeded(conditions[j])
    {
      if DeadlineExceeded(conditions[i]) {
        return true;
      }
    }
    failed := false;
  }

  /** The status merge patch: the current version then has all the fields that
      the pass changed. */
  method PatchStatus(api: Server, copy: CDCopy, ghost orig: CDVersion) returns (answer: Answer, ghost acts: seq<Effect>)
    requires api.Valid() && api.sys.store.cds != []
    requires api.sys.cd == CDPatching(orig, copy.Status())
    modifies api
    ensures api.Kept(CDActor, answer.Lost?, acts) && api.sys.cd.CDRest?
    ensures CDWritten(api.replies(old(api.calls)), orig, copy.Status(), acts, answer)
    ensures answer.Done? ==> Carries(Last(api.sys.store.cds).status, orig.status, copy.Status())
  {
    acts := [];
    var r := api.Turn(CDActor);
    if r.lost {
      return Lost, acts;
    }
    acts := CDEffect(api.sys, CDPatch);
    api.Move(CDActor, ByCD(CDPatch));
    answer := Done;
  }

  /** Reads the CI from the cache; None when it has no such CI. */
  method GetCI(api: Server, copy: CDCopy, allowed: bool, ghost orig: CDVersion)
    returns (answer: Answer, ci: Option<CIVersion>, ghost acts: seq<Effect>)
    requires api.Valid() && api.sys.cd == CDReading(orig)
    modifies api
    ensures api.Kept(CDActor, answer.Lost?, acts) && (answer.Done? || answer.Lost?)
    ensures api.calls == old(api.calls) + 1 && (answer.Lost? <==> api.replies(old(api.calls)).lost)
    ensures if answer.Lost? then acts == []
            else
              && |acts| == 1 && acts[0].ReadCI? && acts[0].allowed == allowed
              && FromCache(acts[0].ci, api.replies(old(api.calls)).cached, |old(api.sys).store.cis|)
              && Seen(api.sys.store.cis, acts[0].ci) && ci == At(api.sys.store.cis, acts[0].ci)
    ensures answer.Done? ==>
              api.sys.cd ==
              if ci.None? || ci.value.status.image == "" then CDPatching(orig, orig.status.(phase := CDWaiting))
              else if !allowed then CDPatching(orig, orig.status.(phase := CDFailed))
              else CDApplying(orig, ci.value.status.image, ci.value.status.revision)
  {
    ci, acts := None, [];
    var r := api.Turn(CDActor);
    if r.lost {
      return Lost, None, acts;
    }
    var seen := CachedIn(api.sys.store.cis, r.cached);
    ci := At(api.sys.store.cis, seen);
    acts := CDEffect(api.sys, CDReadCI(seen, allowed));
    api.Move(CDActor, ByCD(CDReadCI(seen, allowed)));
    answer := Done;
  }

  /** What the create or update of the Deployment and of the Kubernetes Service
      gave: refused, applied, or with a copy that was not the current one. */
  predicate DeploymentDid(r: Reply, st: Store, spec: CDSpec, image: string, d: Option<Deployment>, acts: seq<Effect>,
                          answer: Answer) {
    if r.lost then GaveUpThere(acts, answer)
    else if r.deploy == DeployRefused then acts == [] && answer.Refused?
    else if acts != [] then
      && |acts| == 1 && acts[0].Applied? && acts[0].spec == spec && acts[0].image == image
      && (r.deploy == Deployed ==> answer.Done? && d == Some(acts[0].d))
      && (r.deploy == ExposeConflict ==> answer.Conflict?)
      && (r.deploy == ExposeRefused ==> answer.Refused?)
    else st.deps != [] && (answer.Refused? || answer.Conflict?)
  }

  /** reconcileDeployment, then the Kubernetes Service that exposes it: done
      with the Deployment that has exactly what the CD asks for. */
  method ReconcileDeployment(api: Server, copy: CDCopy, image: string, revision: string, ghost orig: CDVersion)
    returns (answer: Answer, d: Option<Deployment>, ghost acts: seq<Effect>)
    requires api.Valid() && copy.spec == orig.spec
    requires api.sys.cd == CDApplying(orig, image, revision)
    modifies api
    ensures api.Kept(CDActor, answer.Lost?, acts)
    ensures api.calls == old(api.calls) + 1
    ensures DeploymentDid(api.replies(old(api.calls)), api.sys.store, orig.spec, image, d, acts, answer)
    ensures answer.Done? <==> d.Some?
    ensures forall e | e in acts :: Holds(api.cfg, api.sys.store, e)
    ensures answer.Done? ==>
              && api.sys.cd == CDPatching(orig, RolloutStatus(orig.status, image, revision, d.value))
              && DeploymentFields(copy.spec, image, d.value.spec)
    ensures answer.Conflict? ==> api.sys.cd.CDRest?
    ensures answer.Refused? ==> api.sys.cd == CDPatching(orig, orig.status.(phase := CDFailed))
  {
    d, acts := None, [];
    var r := api.Turn(CDActor);
    if r.lost {
      return Lost, d, acts;
    }
    var deps := api.sys.store.deps;
    var seen := CachedIn(deps, r.cached);
    var put := PutDeployment(deps, seen, WantedDeployment(copy.spec, image));
    acts := CDEffect(api.sys, CDDeploy(seen, r.deploy));
    CDEffectHolds(api.cfg, api.sys, CDDeploy(seen, r.deploy));
    api.Move(CDActor, ByCD(CDDeploy(seen, r.deploy)));
    if r.deploy == DeployRefused {
      return Refused, d, acts;
    }
    if put.None? {
      return if seen.None? then Refused else Conflict, d, acts;
    }
    if r.deploy == ExposeConflict {
      return Conflict, d, acts;
    }
    if r.deploy == ExposeRefused {
      return Refused, d, acts;
    }
    answer, d := Done, Some(put.value.1);
  }

  /** The switch over the state of the rollout. */
  method Progress(cd: CDCopy, deploy: Deployment)
    modifies cd
    ensures cd.Status() == RolloutStatus(old(cd.Status()), old(cd.image), old(cd.revision), deploy)
  {
    var want := deploy.spec.replicas;
    var rolledOut := deploy.status.observed >= deploy.generation &&
                     deploy.status.updated >= want && deploy.status.available >= want;
    if rolledOut {
      cd.SetCondition(CDRunning);
    } else {
      var failed := DeployFailed(deploy);
      cd.SetCondition(if failed then CDFailed else CDDeploying);
    }
  }

  lemma RolloutOfPass(replies: Replies, k: nat, now: Store, st: Store, v: CDVersion, image: string, revision: string,
                      d: Option<Deployment>, first: seq<Effect>, went: Answer, more: seq<Effect>, answer: Answer)
    requires DeploymentDid(replies(k), now, v.spec, image, d, first, went) && Later(now, st)
    requires if went.Lost? || went.Conflict? then more == [] && answer == went
             else CDWritten(replies(k + 1), v,
                            if went.Done? && d.Some? then RolloutStatus(v.status, image, revision, d.value)
                            else v.status.(phase := CDFailed), more, answer)
    ensures CDRolledOut(replies, k, st, v, image, revision, first + more, answer)
  {
    assert first != [] ==> (first + more)[1..] == more && (first + more)[0] == first[0];
    assert first == [] ==> first + more == more;
  }

  /** What the rollout of the Deployment says, or that there was none. */
  method RecordRollout(api: Server, cd: CDCopy, image: string, revision: string, d: Option<Deployment>,
                       ghost orig: CDVersion)
    returns (answer: Answer, ghost acts: seq<Effect>)
    requires api.Valid() && api.sys.store.cds != [] && cd.Status() == orig.status
    requires api.sys.cd == CDPatching(orig, if d.Some? then RolloutStatus(orig.status, image, revision, d.value)
                                            else orig.status.(phase := CDFailed))
    modifies api, cd
    ensures api.Kept(CDActor, answer.Lost?, acts) && api.sys.cd.CDRest?
    ensures CDWritten(api.replies(old(api.calls)), orig, old(api.sys).cd.st, acts, answer)
    ensures cd.Status() == old(api.sys).cd.st
  {
    if d.Some? {
      cd.image := image;
      cd.revision := revision;
      Progress(cd, d.value);
    } else {
      cd.SetCondition(CDFailed);
    }
    answer, acts := PatchStatus(api, cd, orig);
  }

  /** The end of a pass that has an image to deploy. */
  method Deploy(api: Server, cd: CDCopy, image: string, revision: string, ghost orig: CDVersion)
    returns (answer: Answer, ghost acts: seq<Effect>)
    requires api.Valid() && api.sys.store.cds != [] && cd.spec == orig.spec && cd.Status() == orig.status
    requires api.sys.cd == CDApplying(orig, image, revision)
    modifies api, cd
    ensures api.Kept(CDActor, answer.Lost?, acts) && api.sys.cd.CDRest?
    ensures CDRolledOut(api.replies, old(api.calls), api.sys.store, orig, image, revision, acts, answer)
  {
    ghost var before, start := api.cdDone, api.calls;
    var d: Option<Deployment>;
    answer, d, acts := ReconcileDeployment(api, cd, image, revision, orig);
    ghost var first, now, went := acts, api.sys.store, answer;
    if answer.Lost? || answer.Conflict? {
      RolloutOfPass(api.replies, start, now, now, orig, image, revision, d, first, went, [], answer);
      assert first + [] == first;
      return;
    }
    assert api.cdDone == before + first + [];
    answer, acts := RecordRollout(api, cd, image, revision, d, orig);
    Then(before, first, acts, if answer.Lost? then [GaveUp] else []);
    RolloutOfPass(api.replies, start, now, api.sys.store, orig, image, revision, d, first, went, acts, answer);
    acts := first + acts;
  }

  /** Waiting for an image, or for a Secret that is allowed. */
  method Report(api: Server, cd: CDCopy, phase: CDPhase, ghost orig: CDVersion)
    returns (answer: Answer, ghost acts: seq<Effect>)
    requires api.Valid() && api.sys.store.cds != [] && cd.Status() == orig.status
    requires api.sys.cd == CDPatching(orig, orig.status.(phase := phase))
    modifies api, cd
    ensures api.Kept(CDActor, answer.Lost?, acts) && api.sys.cd.CDRest?
    ensures CDWritten(api.replies(old(api.calls)), orig, orig.status.(phase := phase), acts, answer)
  {
    cd.SetCondition(phase);
    answer, acts := PatchStatus(api, cd, orig);
  }

  /** The pass after the read of its CI. */
  method Decide(api: Server, cd: CDCopy, allowed: bool, ci: Option<CIVersion>, ghost orig: CDVersion)
    returns (answer: Answer, ghost acts: seq<Effect>)
    requires api.Valid() && api.sys.store.cds != [] && cd.spec == orig.spec && cd.Status() == orig.status
    requires api.sys.cd ==
             if ci.None? || ci.value.status.image == "" then CDPatching(orig, orig.status.(phase := CDWaiting))
             else if !allowed then CDPatching(orig, orig.status.(phase := CDFailed))
             else CDApplying(orig, ci.value.status.image, ci.value.status.revision)
    modifies api, cd
    ensures api.Kept(CDActor, answer.Lost?, acts) && api.sys.cd.CDRest?
    ensures CDDecided(api.replies, old(api.calls), api.sys.store, orig, allowed, ci, acts, answer)
  {
    if ci.None? || ci.value.status.image == "" {
      answer, acts := Report(api, cd, CDWaiting, orig);
    } else if !allowed {
      answer, acts := Report(api, cd, CDFailed, orig);
    } else {
      answer, acts := Deploy(api, cd, ci.value.status.image, ci.value.status.revision, orig);
    }
  }

  /** Reconcile: one pass under any interference; see CIReconciler. It begins
      with the CD as it is then. */
  method Reconcile(api: Server, allowed: bool) returns (answer: Answer, ghost acts: seq<Effect>)
    requires api.Valid() && api.sys.cd.CDRest? && api.sys.store.cds != []
    modifies api
    ensures api.sys.cd.CDRest?
    ensures api.Kept(CDActor, answer.Lost?, [BeganCD(Last(old(api.sys).store.cds))] + acts)
    ensures CDPassDid(api.replies, old(api.calls), old(api.sys).store, api.sys.store, Last(old(api.sys).store.cds),
                      allowed, acts, answer)
  {
    ghost var before := api.cdDone;
    ghost var orig := Last(api.sys.store.cds);
    var cd := new CDCopy(Last(api.sys.store.cds));
    Begin(api);
    answer, acts := Pass(api, cd, allowed, orig);
    Then(before, [BeganCD(orig)], acts, if answer.Lost? then [GaveUp] else []);
  }

  method Begin(api: Server)
    requires api.Valid() && api.sys.cd.CDRest? && api.sys.store.cds != []
    modifies api
    ensures api.Kept(CDActor, false, [BeganCD(Last(old(api.sys).store.cds))])
    ensures api.calls == old(api.calls)
    ensures api.sys == old(api.sys).(cd := CDReading(Last(old(api.sys).store.cds)))
  {
    api.Take(ByCD(CDBegin));
  }

  /** The pass after the read of its own object. */
  method Pass(api: Server, cd: CDCopy, allowed: bool, ghost orig: CDVersion)
    returns (answer: Answer, ghost acts: seq<Effect>)
    requires api.Valid() && api.sys.store.cds != [] && cd.spec == orig.spec && cd.Status() == orig.status
    requires api.sys.cd == CDReading(orig)
    modifies api, cd
    ensures api.Kept(CDActor, answer.Lost?, acts) && api.sys.cd.CDRest?
    ensures CDPassDid(api.replies, old(api.calls), old(api.sys).store, api.sys.store, orig, allowed, acts, answer)
  {
    ghost var before := api.cdDone;
    var ci: Option<CIVersion>;
    answer, ci, acts := GetCI(api, cd, allowed, orig);
    if answer.Lost? {
      return;
    }
    ghost var first := acts;
    assert api.cdDone == before + first + [];
    answer, acts := Decide(api, cd, allowed, ci, orig);
    Then(before, first, acts, if answer.Lost? then [GaveUp] else []);
    assert (first + acts)[1..] == acts && (first + acts)[0] == first[0];
    acts := first + acts;
  }
}
