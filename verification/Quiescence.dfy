/** Where nothing is left to do: which passes write nothing, and what undoes a
    hand edit. */
module Quiescence {
  import opened Common
  import opened Objects
  import opened System
  import opened Fields
  import opened FreshPasses
  import opened Convergence

  // -------------------------------------------------------------- quiescence

  lemma ServiceQuiescent(cfg: Config, s: State, w: World)
    requires Ready(cfg, s, w) && Buildable(cfg, w)
    ensures ServicePass(cfg, s, w).store == s.store
  {
    MatchedServiceEffect(cfg, s, w);
    ServicePassKeeps(cfg, s, w);
  }

  /** Once the Service is Ready at the head, a further pass of any of the three
      reconcilers writes nothing: no spec, no status, no generation, no Pod. */
  lemma Quiescent(cfg: Config, s: State, w: World)
    requires Ready(cfg, s, w) && Buildable(cfg, w)
    ensures ServicePass(cfg, s, w).store == s.store
    ensures CIPass(cfg, s) == s
    ensures CDPass(s) == s
  {
    ServiceQuiescent(cfg, s, w);
    CIPassReleases(cfg, s, w);
    CDPassEffect(cfg, s, w);
  }

  /** The parts of a CI spec that the Service does not own, after defaults. */
  predicate SameOwnFields(cfg: Config, svc: ServiceSpec, a: CISpec, b: CISpec) {
    && a.login == b.login
    && a.extraSteps == b.extraSteps
    && (svc.image.None? ==>
          && FilledRegistry(cfg, a.registry, b.registry)
          && FilledRepo(cfg, a.repo, b.repo)
          && a.credentials == b.credentials)
  }

  /** A hand edit of the CI spec is undone by one Service pass exactly when it
      touched only fields the Service owns: without spec.image that leaves the
      registry, its repository and its credentials to the user. */
  lemma HandEditReverted(cfg: Config, s: State, w: World, edit: CISpec)
    requires Matched(cfg, s, w) && Buildable(cfg, w)
    ensures
      var c := Last(s.store.cis);
      var edited := s.(store := EnvStep(s.store, EditCI(edit, c.language)));
      var after := ServicePass(cfg, edited, w).store.cis;
      && after != []
      && (Last(after).spec == c.spec <==> SameOwnFields(cfg, Last(s.store.svcs).spec, edit, c.spec))
  {
    var v, c := Last(s.store.svcs), Last(s.store.cis);
    var edited := s.(store := EnvStep(s.store, EditCI(edit, c.language)));
    ServicePassEffect(cfg, edited, w);
    var cis := edited.store.cis;
    assert Last(cis) == NextCI(c, edit, c.language);
    EnsuredSpec(cfg, cis, v.spec, TargetFor(cfg, v, w));
    EditedSpec(cfg, v.spec, TargetOf(v.status, w), edit, c.spec);
  }

  lemma EditedSpec(cfg: Config, svc: ServiceSpec, t: Target, edit: CISpec, spec: CISpec)
    requires PointCI(cfg, svc, t, spec) == spec
    ensures PointCI(cfg, svc, t, edit) == spec <==> SameOwnFields(cfg, svc, edit, spec)
  {
  }

  // --------------------------------------------------------- what rests

  /** After a failure of its own a Service rests: an invalid source until the
      spec changes, anything else while the retry pause lasts. */
  lemma OwnFailureRests(cfg: Config, st: Store, before: ServiceStatus, fault: SvcFault, view: SvcView)
    requires view.copy < |st.svcs|
    requires st.svcs[view.copy].status == MarkFailed(before, st.svcs[view.copy].generation, fault)
    ensures
      DecideService(cfg, st, view) == SvcRest <==>
      !ValidSource(cfg, st.svcs[view.copy].spec) || view.waiting
  {
  }

  /** A pipeline failure, by contrast, is not the Service's to retry: it goes
      on following its CI, or the branch if that moved. */
  lemma PipelineFailureGoesOn(cfg: Config, st: Store, before: ServiceStatus, view: SvcView, reason: SvcReason)
    requires view.copy < |st.svcs| && (reason == ReasonCIFailed || reason == ReasonCDFailed)
    requires
      var v := st.svcs[view.copy];
      v.status == SetPipelineFailed(before, reason) && before.observed == v.generation && before.ciRef != ""
    requires ValidSource(cfg, st.svcs[view.copy].spec) && view.token && view.plugins.Some? && view.discovery.Stack?
    ensures view.remote.Some? ==> DecideService(cfg, st, view).SvcPointing?
    ensures view.remote == Some(before.latestRevision) ==> !DecideService(cfg, st, view).found
  {
  }
}
