/** What a Service that has become Ready at the head runs, in terms of the
    Service itself: its own replicas, environment and port, and an image named
    after the head. */
module Delivered {
  import opened Common
  import opened Objects
  import opened System
  import opened Fields
  import opened Histories
  import opened BuildSafety
  import opened FreshPasses
  import opened Convergence

  /** The CI asks for the head, as the Service and its discovery say. */
  predicate AsksForHead(cfg: Config, svc: ServiceVersion, ci: CISpec, w: World) {
    && ci.revision == w.head
    && ci.plugins == w.plugins
    && ci.dockerfile == svc.status.dockerfile
    && CIFields(cfg, svc.spec, Target(svc.status.language, w.head, svc.status.dockerfile, w.plugins), ci, ci)
  }

  /** The Secret that the Pods of the app pull their image with. */
  predicate PullsWith(cfg: Config, ci: CISpec, secret: string) {
    if ci.credentials != "" then secret == ci.credentials
    else if ci.login then secret == cfg.ci + "-registry"
    else secret == ""
  }

  /** This Deployment is what the Service asks for, with an image of the head,
      and it is rolled out to all its replicas. */
  ghost predicate RunsService(cfg: Config, svc: ServiceSpec, ci: CISpec, head: string, d: Deployment) {
    && (match svc.replicas
        case None => d.spec.replicas == 1
        case Some(n) => d.spec.replicas == if n < 0 then 1 else n)
    && d.spec.template.env == svc.env
    && PortOf(svc.port, d.spec.template.port)
    && PullsWith(cfg, ci, d.spec.template.pullSecret)
    && d.spec.template.resources.Some?
    && NamesImage(ci, head, d.spec.template.image)
    && Tagged(d.spec.template.image, head)
    && d.status.observed >= d.generation
    && d.status.updated >= d.spec.replicas
    && d.status.available >= d.spec.replicas
  }

  ghost predicate Delivers(cfg: Config, st: Store, w: World) {
    && st.svcs != [] && st.cis != [] && st.deps != []
    && AsksForHead(cfg, Last(st.svcs), Last(st.cis).spec, w)
    && RunsService(cfg, Last(st.svcs).spec, Last(st.cis).spec, w.head, Last(st.deps))
  }

  /** The image of a success that is current has the name that the spec of
      today gives it. */
  lemma CurrentImageIsNamed(s: State)
    requires BuildInv(s) && s.store.cis != []
    requires Current(Last(s.store.cis)) && Last(s.store.cis).status.phase == CISucceeded
    ensures
      var c := Last(s.store.cis);
      NamesImage(c.spec, c.spec.revision, c.status.image)
  {
    var st, c := s.store, Last(s.store.cis);
    var p := c.status.buildPod;
    assert StatusOk(st, c.generation, c.status);
    assert BuiltFor(st, c.status, p.value);
    var m :| 0 <= m < |st.cis| && st.cis[m].generation == c.status.observed && MadeFrom(st, p.value, st.cis[m].spec);
    assert st.cis[m].spec == c.spec;
    ImageRefNames(c.spec, c.spec.revision, c.status.image);
  }

  /** From the CD to the Service. */
  lemma WantedRunsService(cfg: Config, svc: ServiceSpec, ci: CISpec, cd: CDSpec, head: string, image: string,
                          d: Deployment)
    requires PointCD(cfg, ci, svc, cd) == cd && d.spec == WantedDeployment(cd, image)
    requires NamesImage(ci, head, image) && |head| >= 12 && RolledOut(d)
    ensures RunsService(cfg, svc, ci, head, d)
  {
    PointCDFields(cfg, ci, svc, cd, cd);
    WantedDeploymentFields(cd, image, d.spec);
    ImageRefNames(ci, head, image);
    NamedIsTagged(ci, head);
  }

  /** Ready at the head: the CI asks for the head with the Service's own build
      settings, and the newest Deployment runs it as the Service says. */
  lemma ReadyDelivers(cfg: Config, s: State, w: World)
    requires Reachable(cfg, s) && Ready(cfg, s, w) && Buildable(cfg, w)
    ensures Delivers(cfg, s.store, w)
  {
    var v, c, cd := Last(s.store.svcs), Last(s.store.cis), Last(s.store.cds);
    ReachableIsSafe(cfg, s);
    CurrentImageIsNamed(s);
    PointCIFields(cfg, v.spec, TargetOf(v.status, w), c.spec, c.spec);
    WantedRunsService(cfg, v.spec, c.spec, cd.spec, w.head, c.status.image, Last(s.store.deps));
  }

  lemma ReachableIsSafe(cfg: Config, s: State)
    requires Reachable(cfg, s)
    ensures BuildInv(s)
  {
    var trace :| Run(cfg, Initial(), trace) == s;
    RunBuildInv(cfg, trace);
  }

  /** No pass edits the Service. */
  lemma SvcStepKeepsSpec(cfg: Config, s: State, a: SvcAction)
    requires s.store.svcs != []
    ensures
      var t := SvcStep(cfg, s, a).store.svcs;
      t != [] && Last(t).spec == Last(s.store.svcs).spec
  {
  }

  lemma ServicePassKeepsSpec(cfg: Config, s: State, w: World)
    requires s.store.svcs != []
    ensures
      var t := ServicePass(cfg, s, w).store.svcs;
      t != [] && Last(t).spec == Last(s.store.svcs).spec
  {
    var s1 := SvcStep(cfg, s, SvcBegin(ServiceView(s.store, w)));
    SvcStepKeepsSpec(cfg, s, SvcBegin(ServiceView(s.store, w)));
    var s2 := SvcStep(cfg, s1, SvcEnsureCI(Newest(s1.store.cis), false));
    SvcStepKeepsSpec(cfg, s1, SvcEnsureCI(Newest(s1.store.cis), false));
    ServiceTailKeepsSpec(cfg, s2);
    assert ServicePass(cfg, s, w) == ServiceTail(cfg, s2);
  }

  lemma ServiceTailKeepsSpec(cfg: Config, s: State)
    requires s.store.svcs != []
    ensures
      var t := ServiceTail(cfg, s).store.svcs;
      t != [] && Last(t).spec == Last(s.store.svcs).spec
  {
    var s3 := SvcStep(cfg, s, SvcSyncCD(Newest(s.store.cds)));
    SvcStepKeepsSpec(cfg, s, SvcSyncCD(Newest(s.store.cds)));
    SvcStepKeepsSpec(cfg, s3, SvcDerive(Newest(s3.store.cis), Newest(s3.store.cds)));
    SvcStepKeepsSpec(cfg, SvcStep(cfg, s3, SvcDerive(Newest(s3.store.cis), Newest(s3.store.cds))), SvcPatch);
  }

  lemma CIStepKeepsServices(cfg: Config, s: State, a: CIAction)
    ensures CIStep(cfg, s, a).store.svcs == s.store.svcs
  {
  }

  lemma CIPassKeepsServices(cfg: Config, s: State)
    ensures CIPass(cfg, s).store.svcs == s.store.svcs
  {
    if s.store.cis != [] && s.store.svcs != [] {
      var s1 := CIStep(cfg, s, CIBegin(FreshCIView(s.store)));
      var s2 := CIStep(cfg, s1, CIDeletePods);
      CIStepKeepsServices(cfg, s, CIBegin(FreshCIView(s.store)));
      CIStepKeepsServices(cfg, s1, CIDeletePods);
      CIStepKeepsServices(cfg, s2, CICreatePod(Created));
      CIEndKeepsServices(cfg, CIStep(cfg, s2, CICreatePod(Created)));
    }
  }

  lemma CIEndKeepsServices(cfg: Config, s3: State)
    ensures CIEnd(cfg, s3).store.svcs == s3.store.svcs
  {
    var s4 := CIStep(cfg, s3, CIConfirmPod);
    var s5 := CIStep(cfg, s4, CICompare);
    var s6 := CIStep(cfg, s5, CIPatch);
    CIStepKeepsServices(cfg, s3, CIConfirmPod);
    CIStepKeepsServices(cfg, s4, CICompare);
    CIStepKeepsServices(cfg, s5, CIPatch);
    CIStepKeepsServices(cfg, s6, CIEnsureCD(Newest(s6.store.cds)));
  }

  lemma CDStepKeepsServices(s: State, a: CDAction)
    ensures CDStep(s, a).store.svcs == s.store.svcs
  {
  }

  lemma CDPassKeepsServices(s: State)
    ensures CDPass(s).store.svcs == s.store.svcs
  {
    var s1 := CDStep(s, CDBegin);
    var s2 := CDStep(s1, CDReadCI(Newest(s1.store.cis), true));
    var s3 := CDStep(s2, CDDeploy(Newest(s2.store.deps), Deployed));
    CDStepKeepsServices(s, CDBegin);
    CDStepKeepsServices(s1, CDReadCI(Newest(s1.store.cis), true));
    CDStepKeepsServices(s2, CDDeploy(Newest(s2.store.deps), Deployed));
    CDStepKeepsServices(s3, CDPatch);
  }

  lemma PassKeepsSpec(cfg: Config, s: State, w: World, p: Pass)
    requires s.store.svcs != []
    ensures
      var t := Do(cfg, s, w, p).store.svcs;
      t != [] && Last(t).spec == Last(s.store.svcs).spec
  {
    match p
    case OfService => ServicePassKeepsSpec(cfg, s, w);
    case OfCI => CIPassKeepsServices(cfg, s);
    case OfCD => CDPassKeepsServices(s);
    case _ =>
  }

  lemma {:induction false} OrderKeepsSpec(cfg: Config, s: State, w: World, order: seq<Pass>)
    requires s.store.svcs != []
    ensures
      var t := DoAll(cfg, s, w, order).store.svcs;
      t != [] && Last(t).spec == Last(s.store.svcs).spec
  {
    if order != [] {
      var before := order[..|order| - 1];
      OrderKeepsSpec(cfg, s, w, before);
      PassKeepsSpec(cfg, DoAll(cfg, s, w, before), w, Last(order));
    }
  }

  /** End to end, from any reachable state at rest: once the order has met the
      road, a Service with a valid source and a CI that is not hopeless runs at
      the head with just the replicas, environment and port that it asked for
      at the start. */
  lemma ConvergesToService(cfg: Config, s: State, w: World, order: seq<Pass>)
    requires Start(cfg, s, w) && Buildable(cfg, w) && Met(ROAD, order) == |ROAD|
    ensures
      var t := DoAll(cfg, s, w, order);
      && ReportsReady(t) && Delivers(cfg, t.store, w)
      && RunsService(cfg, Last(s.store.svcs).spec, Last(t.store.cis).spec, w.head, Last(t.store.deps))
  {
    OrderProgress(cfg, s, w, order);
    OrderLeads(cfg, s, w, order);
    LeadsOn(cfg, s, DoAll(cfg, s, w, order));
    ReadyDelivers(cfg, DoAll(cfg, s, w, order), w);
    OrderKeepsSpec(cfg, s, w, order);
  }
}
