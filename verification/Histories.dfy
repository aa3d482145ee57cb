/** What every step keeps of the past: versions are never rewritten, Pods
    never come back, and a generation stands for one spec. */
module Histories {
  import opened Common
  import opened Objects
  import opened System

  predicate PodLater(before: Pod, after: Pod) {
    && after.spec == before.spec
    && after.svc == before.svc
    && after.revision == before.revision
    && after.image == before.image
    && (before.phase != PodRunning ==> after.phase == before.phase)
    && (before.deleting ==> after.deleting)
    && (before.gone ==> after.gone)
  }

  ghost predicate Extends(a: Store, b: Store) {
    && a.svcs <= b.svcs
    && a.cis <= b.cis
    && a.cds <= b.cds
    && a.deps <= b.deps
    && |a.pods| <= |b.pods|
    && forall p | 0 <= p < |a.pods| :: PodLater(a.pods[p], b.pods[p])
  }

  lemma EnvExtends(st: Store, e: EnvAction)
    ensures Extends(st, EnvStep(st, e))
  {
  }

  lemma CIExtends(cfg: Config, s: State, a: CIAction)
    ensures Extends(s.store, CIStep(cfg, s, a).store)
    ensures s.found <= CIStep(cfg, s, a).found
  {
  }

  lemma SvcExtends(cfg: Config, s: State, a: SvcAction)
    ensures Extends(s.store, SvcStep(cfg, s, a).store)
    ensures s.found <= SvcStep(cfg, s, a).found
  {
  }

  lemma CDExtends(s: State, a: CDAction)
    ensures Extends(s.store, CDStep(s, a).store)
    ensures s.found <= CDStep(s, a).found
  {
  }

  /** No step rewrites a version, revives a Pod or changes how one ended. */
  lemma StepExtends(cfg: Config, s: State, a: Action)
    ensures Extends(s.store, Step(cfg, s, a).store)
    ensures s.found <= Step(cfg, s, a).found
  {
    match a
    case ByEnv(e) => EnvExtends(s.store, e);
    case ByCI(c) => CIExtends(cfg, s, c);
    case BySvc(v) => SvcExtends(cfg, s, v);
    case ByCD(d) => CDExtends(s, d);
  }

  lemma {:induction false} RunExtends(cfg: Config, s: State, trace: seq<Action>)
    ensures Extends(s.store, Run(cfg, s, trace).store)
  {
    if trace != [] {
      RunExtends(cfg, s, trace[..|trace| - 1]);
      StepExtends(cfg, Run(cfg, s, trace[..|trace| - 1]), Last(trace));
    }
  }

  // ------------------------------------------------ how CI versions appear

  /** A version written by a spec edit: the status is carried over. */
  predicate Respecified(last: CIVersion, v: CIVersion) {
    v == NextCI(last, v.spec, v.language)
  }

  /** The version a CI pass commits. */
  predicate Committed(place: CIPlace, cis: seq<CIVersion>, v: CIVersion)
    requires cis != []
  {
    && place.CIPatching?
    && place.copy == |cis| - 1
    && v == Last(cis).(status := Apply(place.write, Last(cis)))
  }

  predicate NewCI(v: CIVersion) {
    v.generation == 1 && v.status == NEW_CI_STATUS
  }

  /** A step leaves the CI alone or adds one version, in one of three ways. */
  ghost predicate CIGrows(s: State, t: State) {
    var cis := s.store.cis;
    || t.store.cis == cis
    || (exists v :: t.store.cis == cis + [v] &&
                    (if cis == [] then NewCI(v) else Respecified(Last(cis), v) || Committed(s.ci, cis, v)))
  }

  lemma EnvGrowsCI(s: State, e: EnvAction)
    ensures CIGrows(s, s.(store := EnvStep(s.store, e)))
  {
    var t := EnvStep(s.store, e).cis;
    assert t == s.store.cis || t == s.store.cis + [Last(t)];
  }

  lemma CIGrowsCI(cfg: Config, s: State, a: CIAction)
    ensures CIGrows(s, CIStep(cfg, s, a))
  {
    var t := CIStep(cfg, s, a).store.cis;
    assert t == s.store.cis || t == s.store.cis + [Last(t)];
  }

  lemma EnsureGrowsCI(cfg: Config, cis: seq<CIVersion>, seen: Option<nat>, svc: ServiceSpec, target: Target)
    requires Seen(cis, seen)
    ensures
      var r := PutCI(cfg, cis, seen, svc, target);
      r.Some? && r.value != cis ==>
        exists v :: r.value == cis + [v] && if cis == [] then NewCI(v) else Respecified(Last(cis), v)
  {
    var r := PutCI(cfg, cis, seen, svc, target);
    if r.Some? && r.value != cis {
      assert r.value == cis + [Last(r.value)];
    }
  }

  lemma SvcGrowsCI(cfg: Config, s: State, a: SvcAction)
    ensures CIGrows(s, SvcStep(cfg, s, a))
  {
    var t := SvcStep(cfg, s, a).store.cis;
    if a.SvcEnsureCI? && t != s.store.cis {
      EnsureGrowsCI(cfg, s.store.cis, a.ciSeen, s.store.svcs[s.svc.copy].spec, s.svc.target);
    }
  }

  lemma StepGrowsCI(cfg: Config, s: State, a: Action)
    ensures CIGrows(s, Step(cfg, s, a))
  {
    match a
    case ByEnv(e) => EnvGrowsCI(s, e);
    case ByCI(c) => CIGrowsCI(cfg, s, c);
    case BySvc(v) => SvcGrowsCI(cfg, s, v);
    case ByCD(_) =>
  }

  /** Only a CI patch writes CI status. */
  lemma OthersKeepCIStatus(cfg: Config, s: State, a: Action)
    requires a != ByCI(CIPatch)
    requires s.store.cis != []
    ensures |Step(cfg, s, a).store.cis| > 0
    ensures Last(Step(cfg, s, a).store.cis).status == Last(s.store.cis).status
  {
    StepGrowsCI(cfg, s, a);
    if a.ByCI? {
      assert CIStep(cfg, s, a.ci).store.cis == s.store.cis;
    } else if a.ByEnv? {
      assert EnvStep(s.store, a.env).cis == s.store.cis || a.env.EditCI?;
    } else if a.BySvc? {
      assert SvcStep(cfg, s, a.svc).store.cis == s.store.cis || a.svc.SvcEnsureCI?;
    }
  }

  // ------------------------------------------------------------ generations

  ghost predicate Numbered(cis: seq<CIVersion>) {
    && (forall m, n | 0 <= m <= n < |cis| :: cis[m].generation <= cis[n].generation)
    && (forall m, n | 0 <= m <= n < |cis| ::
          cis[m].generation == cis[n].generation ==> cis[m].spec == cis[n].spec)
  }

  lemma StepNumbers(cfg: Config, s: State, a: Action)
    requires Numbered(s.store.cis)
    ensures Numbered(Step(cfg, s, a).store.cis)
  {
    StepGrowsCI(cfg, s, a);
  }

  lemma {:induction false} GenerationsNameSpecs(cfg: Config, trace: seq<Action>)
    ensures Numbered(Run(cfg, Initial(), trace).store.cis)
  {
    if trace != [] {
      GenerationsNameSpecs(cfg, trace[..|trace| - 1]);
      StepNumbers(cfg, Run(cfg, Initial(), trace[..|trace| - 1]), Last(trace));
    }
  }

  // The same for Services.

  predicate NextServiceVersion(last: ServiceVersion, v: ServiceVersion) {
    v.generation == last.generation + 1 || (v.generation == last.generation && v.spec == last.spec)
  }

  lemma StepGrowsService(cfg: Config, s: State, a: Action)
    ensures
      var svcs, t := s.store.svcs, Step(cfg, s, a).store.svcs;
      || t == svcs
      || (|t| == |svcs| + 1 && svcs <= t && (svcs != [] ==> NextServiceVersion(Last(svcs), Last(t))))
  {
    match a
    case ByEnv(_) =>
    case ByCI(_) =>
    case BySvc(v) => SvcGrowsService(cfg, s, v);
    case ByCD(_) =>
  }

  lemma SvcGrowsService(cfg: Config, s: State, a: SvcAction)
    ensures
      var svcs, t := s.store.svcs, SvcStep(cfg, s, a).store.svcs;
      || t == svcs
      || (|t| == |svcs| + 1 && svcs <= t && svcs != [] && NextServiceVersion(Last(svcs), Last(t)))
  {
  }

  ghost predicate NumberedServices(svcs: seq<ServiceVersion>) {
    && (forall m, n | 0 <= m <= n < |svcs| :: svcs[m].generation <= svcs[n].generation)
    && (forall m, n | 0 <= m <= n < |svcs| ::
          svcs[m].generation == svcs[n].generation ==> svcs[m].spec == svcs[n].spec)
  }

  lemma GrowNumbered(svcs: seq<ServiceVersion>, v: ServiceVersion)
    requires NumberedServices(svcs) && (svcs != [] ==> NextServiceVersion(Last(svcs), v))
    ensures NumberedServices(svcs + [v])
  {
  }

  lemma {:induction false} ServiceGenerationsNameSpecs(cfg: Config, trace: seq<Action>)
    ensures NumberedServices(Run(cfg, Initial(), trace).store.svcs)
  {
    if trace != [] {
      var before := Run(cfg, Initial(), trace[..|trace| - 1]);
      ServiceGenerationsNameSpecs(cfg, trace[..|trace| - 1]);
      StepGrowsService(cfg, before, Last(trace));
      var svcs, t := before.store.svcs, Step(cfg, before, Last(trace)).store.svcs;
      if t != svcs {
        GrowNumbered(svcs, Last(t));
        assert t == svcs + [Last(t)];
      }
    }
  }

  // ------------------------------------------------------------ reachability

  /** Some run leads from one state to the other. */
  ghost predicate Leads(cfg: Config, from: State, to: State) {
    exists trace :: Run(cfg, from, trace) == to
  }

  ghost predicate Reachable(cfg: Config, s: State) {
    Leads(cfg, Initial(), s)
  }

  lemma LeadsNowhere(cfg: Config, s: State)
    ensures Leads(cfg, s, s)
  {
    assert Run(cfg, s, []) == s;
  }

  lemma StepLeads(cfg: Config, from: State, s: State, a: Action)
    requires Leads(cfg, from, s)
    ensures Leads(cfg, from, Step(cfg, s, a))
  {
    var trace :| Run(cfg, from, trace) == s;
    assert (trace + [a])[..|trace|] == trace;
    assert Run(cfg, from, trace + [a]) == Step(cfg, s, a);
  }

  lemma StepIsReachable(cfg: Config, s: State, a: Action)
    requires Reachable(cfg, s)
    ensures Reachable(cfg, Step(cfg, s, a))
  {
    StepLeads(cfg, Initial(), s, a);
  }

  lemma LeadsExtends(cfg: Config, from: State, to: State)
    requires Leads(cfg, from, to)
    ensures Extends(from.store, to.store)
  {
    var trace :| Run(cfg, from, trace) == to;
    RunExtends(cfg, from, trace);
  }

  lemma RunOneMore(cfg: Config, s: State, trace: seq<Action>, a: Action)
    ensures Run(cfg, s, trace + [a]) == Step(cfg, Run(cfg, s, trace), a)
  {
    assert (trace + [a])[..|trace|] == trace;
  }

  lemma RunsMeet(cfg: Config, s: State, a: seq<Action>, u: State, b: seq<Action>, last: Action)
    requires Run(cfg, s, a) == Run(cfg, u, b)
    ensures Run(cfg, s, a + [last]) == Run(cfg, u, b + [last])
  {
    RunOneMore(cfg, s, a, last);
    RunOneMore(cfg, u, b, last);
  }

  lemma {:induction false} RunJoins(cfg: Config, s: State, a: seq<Action>, b: seq<Action>)
    ensures Run(cfg, s, a + b) == Run(cfg, Run(cfg, s, a), b)
  {
    if b == [] {
      assert a + b == a;
    } else {
      var before, last := b[..|b| - 1], Last(b);
      assert a + b == (a + before) + [last] && b == before + [last];
      RunJoins(cfg, s, a, before);
      RunsMeet(cfg, s, a + before, Run(cfg, s, a), before, last);
    }
  }

  lemma LeadsOn(cfg: Config, s: State, t: State)
    requires Reachable(cfg, s) && Leads(cfg, s, t)
    ensures Reachable(cfg, t)
  {
    var a :| Run(cfg, Initial(), a) == s;
    var b :| Run(cfg, s, b) == t;
    RunJoins(cfg, Initial(), a, b);
  }
}
