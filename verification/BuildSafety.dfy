/** Safety of builds over every run of the step system, however stale the
    copies the reconcilers read and however their calls interleave. */
module BuildSafety {
  import opened Common
  import opened Objects
  import opened System
  import opened Fields
  import opened Histories

  // ------------------------------------------------------------- invariant

  /** Pod p was made from just this spec. */
  predicate MadeFrom(st: Store, p: nat, spec: CISpec) {
    p < |st.pods| && st.pods[p].spec == spec &&
    st.pods[p].revision == spec.revision && st.pods[p].image == ImageRef(spec, spec.revision)
  }

  /** Pod p builds what the CI asked for when it had the observed generation:
      it was made from the whole spec of that generation. */
  ghost predicate BuiltFor(st: Store, c: CIStatus, p: nat) {
    exists m | 0 <= m < |st.cis| ::
      && st.cis[m].generation == c.observed
      && st.cis[m].spec.revision == c.buildingRevision
      && MadeFrom(st, p, st.cis[m].spec)
  }

  /** Some Pod, made from a spec that the CI had, built this image of this
      revision and succeeded. */
  ghost predicate BuiltBy(st: Store, revision: string, image: string, p: nat) {
    && p < |st.pods|
    && st.pods[p].phase == PodSucceeded
    && st.pods[p].revision == revision
    && st.pods[p].image == image
    && exists m | 0 <= m < |st.cis| :: MadeFrom(st, p, st.cis[m].spec)
  }

  predicate Gone(st: Store, p: Option<nat>) {
    p.Some? && p.value < |st.pods| && st.pods[p.value].gone
  }

  ghost predicate StatusOk(st: Store, generation: nat, c: CIStatus) {
    && c.observed <= generation
    && c.phase != CIResolving
    && (c.buildPod.Some? ==> c.buildPod.value < |st.pods|)
    && (c.phase == CIBuilding ==> c.buildPod.Some? && BuiltFor(st, c, c.buildPod.value))
    && (c.phase == CISucceeded ==>
          && c.buildPod.Some?
          && BuiltBy(st, c.revision, c.image, c.buildPod.value)
          && BuiltFor(st, c, c.buildPod.value)
          && c.image != ""
          && c.revision == c.buildingRevision)
    && (c.image != "" || c.revision != "" ==> exists p :: BuiltBy(st, c.revision, c.image, p))
    && (c.phase == CIFailed && c.reason == BuildPodLost ==> Gone(st, c.buildPod))
  }

  ghost predicate AllStatusOk(st: Store) {
    forall n | 0 <= n < |st.cis| :: StatusOk(st, st.cis[n].generation, st.cis[n].status)
  }

  /** A new build is due for this copy. */
  predicate BuildDue(c: CIVersion) {
    && !Following(c)
    && !(Current(c) && (c.status.phase == CISucceeded || c.status.phase == CIFailed))
    && c.spec.revision != ""
  }

  predicate AllDeleting(st: Store) {
    forall p | 0 <= p < |st.pods| :: st.pods[p].deleting
  }

  predicate Unnamed(st: Store, p: nat) {
    forall n | 0 <= n < |st.cis| :: st.cis[n].status.buildPod != Some(p)
  }

  ghost predicate WriteOk(st: Store, c: CIVersion, w: CIWrite) {
    match w
    case ToWaiting => true
    case ToFailed(reason) => reason != BuildPodLost && (reason != InvalidSpec ==> BuildDue(c))
    case ToRejected => BuildDue(c)
    case ToBuilding(p) =>
      && BuildDue(c)
      && MadeFrom(st, p, c.spec)
      && Unnamed(st, p)
    case StillBuilding => Following(c)
    case ToBuildFailed => Following(c)
    case ToLost => Following(c) && Gone(st, c.status.buildPod)
    case ToSucceeded =>
      && Following(c)
      && c.spec.revision != ""
      && c.status.buildPod.value < |st.pods|
      && st.pods[c.status.buildPod.value].phase == PodSucceeded
  }

  ghost predicate PlaceOk(st: Store, place: CIPlace) {
    match place
    case CIRest => true
    case CIDeleting(i, _, _) => i < |st.cis| && BuildDue(st.cis[i])
    case CICreating(i, _) => i < |st.cis| && BuildDue(st.cis[i]) && AllDeleting(st)
    case CIConfirming(i, j) => i < |st.cis| && Following(st.cis[i]) && st.cis[i].spec.revision != ""
    case CIComparing(i) => i < |st.cis| && Following(st.cis[i]) && Gone(st, st.cis[i].status.buildPod)
    case CIPatching(i, w, _) => i < |st.cis| && WriteOk(st, st.cis[i], w)
    case CIEnsuring(i, _) => i < |st.cis|
  }

  /** At most one build Pod is not marked for deletion. */
  ghost predicate OneLivePod(st: Store) {
    forall p, q | 0 <= p < q < |st.pods| :: st.pods[p].deleting || st.pods[q].deleting
  }

  ghost predicate BuildInv(s: State) {
    && Numbered(s.store.cis)
    && AllStatusOk(s.store)
    && PlaceOk(s.store, s.ci)
    && OneLivePod(s.store)
  }

  // ------------------------------------------------------------ preservation

  lemma StatusOkExtends(a: Store, b: Store, generation: nat, c: CIStatus)
    requires Extends(a, b) && StatusOk(a, generation, c)
    ensures StatusOk(b, generation, c)
  {
    if c.image != "" || c.revision != "" {
      var p :| BuiltBy(a, c.revision, c.image, p);
      assert BuiltBy(b, c.revision, c.image, p);
    }
  }

  /** What the CI pass commits keeps the invariant. */
  lemma CommitStatusOk(st: Store, c: CIVersion, w: CIWrite)
    requires c in st.cis
    requires Numbered(st.cis)
    requires StatusOk(st, c.generation, c.status)
    requires WriteOk(st, c, w)
    ensures StatusOk(st, c.generation, Apply(w, c))
  {
    var m :| 0 <= m < |st.cis| && st.cis[m] == c;
    var after := Apply(w, c);
    match w {
      case ToSucceeded =>
        var p := c.status.buildPod.value;
        assert BuiltFor(st, c.status, p);
        assert BuiltFor(st, after, p);
        assert BuiltBy(st, after.revision, after.image, p);
      case ToBuilding(p) =>
        assert st.cis[m].generation == after.observed;
      case StillBuilding =>
        var p := c.status.buildPod.value;
        if c.status.phase == CIBuilding {
          assert BuiltFor(st, c.status, p);
          assert BuiltFor(st, after, p);
        }
      case _ =>
    }
  }

  /** The version that a step adds. */
  lemma NewStatusOk(s: State, t: Store, v: CIVersion)
    requires BuildInv(s) && Extends(s.store, t) && s.store.cis != []
    requires Respecified(Last(s.store.cis), v) || Committed(s.ci, s.store.cis, v)
    ensures StatusOk(t, v.generation, v.status)
  {
    var last := Last(s.store.cis);
    assert StatusOk(s.store, last.generation, last.status);
    StatusOkExtends(s.store, t, last.generation, last.status);
    if !Respecified(last, v) {
      CommitStatusOk(s.store, last, s.ci.write);
      StatusOkExtends(s.store, t, last.generation, v.status);
    }
  }

  lemma StepStatusOk(cfg: Config, s: State, a: Action)
    requires BuildInv(s)
    ensures AllStatusOk(Step(cfg, s, a).store)
  {
    var t := Step(cfg, s, a).store;
    StepExtends(cfg, s, a);
    StepGrowsCI(cfg, s, a);
    forall n | 0 <= n < |t.cis|
      ensures StatusOk(t, t.cis[n].generation, t.cis[n].status)
    {
      if n < |s.store.cis| {
        StatusOkExtends(s.store, t, t.cis[n].generation, t.cis[n].status);
      } else if s.store.cis != [] {
        NewStatusOk(s, t, t.cis[n]);
      }
    }
  }

  lemma DecidePlaceOk(cfg: Config, st: Store, v: CIView)
    requires CIViewPossible(st, v)
    ensures PlaceOk(st, DecideCI(cfg, st, v))
  {
  }

  /** The other actors leave the place of the CI pass justified. */
  lemma PlaceOkExtends(a: Store, b: Store, place: CIPlace)
    requires Extends(a, b) && PlaceOk(a, place)
    requires place.CICreating? ==> |a.pods| == |b.pods|
    requires forall p: nat | Unnamed(a, p) :: Unnamed(b, p)
    ensures PlaceOk(b, place)
  {
  }

  lemma OthersKeepPlaceOk(cfg: Config, s: State, a: Action)
    requires BuildInv(s)
    requires !a.ByCI?
    ensures PlaceOk(Step(cfg, s, a).store, s.ci)
  {
    var t := Step(cfg, s, a);
    StepExtends(cfg, s, a);
    OthersAddNoPod(cfg, s, a);
    forall p: nat | Unnamed(s.store, p)
      ensures Unnamed(t.store, p)
    {
      OthersNameNoPod(cfg, s, a, p);
    }
    PlaceOkExtends(s.store, t.store, s.ci);
  }

  lemma OthersAddNoPod(cfg: Config, s: State, a: Action)
    requires !a.ByCI?
    ensures |Step(cfg, s, a).store.pods| == |s.store.pods|
  {
  }

  lemma OthersNameNoPod(cfg: Config, s: State, a: Action, p: nat)
    requires !a.ByCI? && Unnamed(s.store, p)
    ensures Unnamed(Step(cfg, s, a).store, p)
  {
    StepGrowsCI(cfg, s, a);
    if s.store.cis != [] {
      OthersKeepCIStatus(cfg, s, a);
      assert Last(s.store.cis).status.buildPod != Some(p);
    }
  }

  lemma CreateOk(cfg: Config, s: State, outcome: CreateOutcome)
    requires BuildInv(s)
    ensures PlaceOk(CIStep(cfg, s, CICreatePod(outcome)).store, CIStep(cfg, s, CICreatePod(outcome)).ci)
  {
    if s.ci.CICreating? && outcome == Created {
      var p := |s.store.pods|;
      forall n | 0 <= n < |s.store.cis|
        ensures s.store.cis[n].status.buildPod != Some(p)
      {
        assert StatusOk(s.store, s.store.cis[n].generation, s.store.cis[n].status);
      }
    }
  }

  lemma ConfirmOk(cfg: Config, s: State)
    requires BuildInv(s)
    ensures PlaceOk(CIStep(cfg, s, CIConfirmPod).store, CIStep(cfg, s, CIConfirmPod).ci)
  {
    if s.ci.CIConfirming? {
      var c := s.store.cis[s.ci.copy];
      assert StatusOk(s.store, c.generation, c.status);
    }
  }

  lemma PatchOk(cfg: Config, s: State)
    requires BuildInv(s)
    ensures PlaceOk(CIStep(cfg, s, CIPatch).store, CIStep(cfg, s, CIPatch).ci)
  {
  }

  lemma StepPlaceOk(cfg: Config, s: State, a: Action)
    requires BuildInv(s)
    ensures PlaceOk(Step(cfg, s, a).store, Step(cfg, s, a).ci)
  {
    if !a.ByCI? {
      OthersKeepPlaceOk(cfg, s, a);
    } else {
      assert Step(cfg, s, a) == CIStep(cfg, s, a.ci);
      match a.ci
      case CIBegin(v) =>
        if s.ci.CIRest? && CIViewPossible(s.store, v) {
          DecidePlaceOk(cfg, s.store, v);
        }
      case CICreatePod(outcome) => CreateOk(cfg, s, outcome);
      case CIConfirmPod => ConfirmOk(cfg, s);
      case CIPatch => PatchOk(cfg, s);
      case _ =>
    }
  }

  lemma StepOneLivePod(cfg: Config, s: State, a: Action)
    requires BuildInv(s)
    ensures OneLivePod(Step(cfg, s, a).store)
  {
  }

  lemma StepBuildInv(cfg: Config, s: State, a: Action)
    requires BuildInv(s)
    ensures BuildInv(Step(cfg, s, a))
  {
    StepNumbers(cfg, s, a);
    StepStatusOk(cfg, s, a);
    StepPlaceOk(cfg, s, a);
    StepOneLivePod(cfg, s, a);
  }

  lemma {:induction false} RunBuildInv(cfg: Config, trace: seq<Action>)
    ensures BuildInv(Run(cfg, Initial(), trace))
  {
    if trace != [] {
      RunBuildInv(cfg, trace[..|trace| - 1]);
      StepBuildInv(cfg, Run(cfg, Initial(), trace[..|trace| - 1]), Last(trace));
    }
  }

  // ------------------------------------------------------ what a CI records

  /** Pod p clones the repository of some version of the Service, with the
      credential of that version: and this Service validated the build. */
  ghost predicate ClonesTheService(cfg: Config, st: Store, p: nat) {
    p < |st.pods| &&
    exists j | 0 <= j < |st.svcs| ::
      st.pods[p].svc == st.svcs[j].spec && ValidBuild(cfg, st.pods[p].spec, st.svcs[j].spec)
  }

  /** The copies that a build is due from validated it. */
  predicate PlaceValid(cfg: Config, st: Store, place: CIPlace) {
    place.CIDeleting? || place.CICreating? ==>
      && place.copy < |st.cis| && place.svc < |st.svcs|
      && ValidBuild(cfg, st.cis[place.copy].spec, st.svcs[place.svc].spec)
  }

  ghost predicate SourceInv(cfg: Config, s: State) {
    && PlaceValid(cfg, s.store, s.ci)
    && forall p: nat | p < |s.store.pods| :: ClonesTheService(cfg, s.store, p)
  }

  lemma StepPlaceValid(cfg: Config, s: State, a: Action)
    requires PlaceValid(cfg, s.store, s.ci)
    ensures PlaceValid(cfg, Step(cfg, s, a).store, Step(cfg, s, a).ci)
  {
    StepExtends(cfg, s, a);
  }

  /** A Pod that a step adds is made from the copies of its pass. */
  lemma StepAddsPod(cfg: Config, s: State, a: Action)
    ensures
      var t := Step(cfg, s, a).store;
      |t.pods| > |s.store.pods| ==>
        && s.ci.CICreating? && s.ci.copy < |s.store.cis| && s.ci.svc < |s.store.svcs|
        && t == s.store.(pods := s.store.pods + [BuildPod(s.store.cis[s.ci.copy].spec, s.store.svcs[s.ci.svc].spec)])
  {
  }

  lemma StepSourceInv(cfg: Config, s: State, a: Action)
    requires SourceInv(cfg, s)
    ensures SourceInv(cfg, Step(cfg, s, a))
  {
    var t := Step(cfg, s, a).store;
    StepPlaceValid(cfg, s, a);
    StepExtends(cfg, s, a);
    StepAddsPod(cfg, s, a);
    forall p: nat | p < |t.pods|
      ensures ClonesTheService(cfg, t, p)
    {
      var j;
      if p < |s.store.pods| {
        assert PodLater(s.store.pods[p], t.pods[p]);
        assert ClonesTheService(cfg, s.store, p);
        j :| 0 <= j < |s.store.svcs| && s.store.pods[p].svc == s.store.svcs[j].spec &&
             ValidBuild(cfg, s.store.pods[p].spec, s.store.svcs[j].spec);
      } else {
        j := s.ci.svc;
      }
      assert t.pods[p].svc == t.svcs[j].spec && ValidBuild(cfg, t.pods[p].spec, t.svcs[j].spec);
    }
  }

  lemma {:induction false} RunSourceInv(cfg: Config, trace: seq<Action>)
    ensures SourceInv(cfg, Run(cfg, Initial(), trace))
  {
    if trace != [] {
      RunSourceInv(cfg, trace[..|trace| - 1]);
      StepSourceInv(cfg, Run(cfg, Initial(), trace[..|trace| - 1]), Last(trace));
    }
  }

  /** A CI never claims an image or a revision that no Pod built: whatever it
      records was built, from that very commit and under that very name, by a
      Pod that succeeded, made from a spec the CI really had and cloned from
      the repository of a version of the Service, which validated just that
      build. */
  lemma TruthfulSuccess(cfg: Config, trace: seq<Action>, n: nat)
    requires n < |Run(cfg, Initial(), trace).store.cis|
    ensures
      var st := Run(cfg, Initial(), trace).store;
      var c := st.cis[n].status;
      c.image != "" || c.revision != "" ==>
        exists p :: BuiltBy(st, c.revision, c.image, p) && ClonesTheService(cfg, st, p)
  {
    RunBuildInv(cfg, trace);
    RunSourceInv(cfg, trace);
    var st := Run(cfg, Initial(), trace).store;
    var c := st.cis[n].status;
    assert StatusOk(st, st.cis[n].generation, c);
    if c.image != "" || c.revision != "" {
      var p :| BuiltBy(st, c.revision, c.image, p);
      assert ClonesTheService(cfg, st, p);
    }
  }

  /** The name that some version of the CI gives the image of this commit. */
  ghost predicate NamedBySpec(st: Store, revision: string, image: string, m: nat) {
    m < |st.cis| && st.cis[m].spec.revision == revision && NamesImage(st.cis[m].spec, revision, image)
  }

  lemma BuiltIsNamed(cfg: Config, st: Store, revision: string, image: string, p: nat)
    requires BuiltBy(st, revision, image, p) && ClonesTheService(cfg, st, p)
    ensures IsSHA(revision) && Tagged(image, revision)
    ensures exists m :: NamedBySpec(st, revision, image, m)
  {
    var m :| 0 <= m < |st.cis| && MadeFrom(st, p, st.cis[m].spec);
    ImageRefNames(st.cis[m].spec, revision, image);
    NamedIsTagged(st.cis[m].spec, revision);
    assert NamedBySpec(st, revision, image, m);
  }

  /** Whatever image a CI records is named after the commit it records with it:
      the registry and repository of a spec that asked for that commit, and the
      first twelve characters of the commit for the tag. */
  lemma RecordedImageIsNamed(cfg: Config, trace: seq<Action>, n: nat)
    requires n < |Run(cfg, Initial(), trace).store.cis|
    ensures
      var st := Run(cfg, Initial(), trace).store;
      var c := st.cis[n].status;
      c.image != "" || c.revision != "" ==>
        && IsSHA(c.revision) && Tagged(c.image, c.revision)
        && exists m :: NamedBySpec(st, c.revision, c.image, m)
  {
    TruthfulSuccess(cfg, trace, n);
    var st := Run(cfg, Initial(), trace).store;
    var c := st.cis[n].status;
    if c.image != "" || c.revision != "" {
      var p :| BuiltBy(st, c.revision, c.image, p) && ClonesTheService(cfg, st, p);
      BuiltIsNamed(cfg, st, c.revision, c.image, p);
    }
  }

  /** So two commits never share an image, as far as the tag tells them apart. */
  lemma CommitsDoNotShareImages(cfg: Config, trace: seq<Action>, m: nat, n: nat)
    requires
      var cis := Run(cfg, Initial(), trace).store.cis;
      && m < |cis| && n < |cis|
      && cis[m].status.image == cis[n].status.image != ""
    ensures
      var cis := Run(cfg, Initial(), trace).store.cis;
      && |cis[m].status.revision| >= 12 && |cis[n].status.revision| >= 12
      && cis[m].status.revision[..12] == cis[n].status.revision[..12]
  {
    RecordedImageIsNamed(cfg, trace, m);
    RecordedImageIsNamed(cfg, trace, n);
    var cis := Run(cfg, Initial(), trace).store.cis;
    TagsDiffer(cis[m].status.image, cis[m].status.revision, cis[n].status.image, cis[n].status.revision);
  }

  /** A Building CI names a Pod made for the revision and for the spec of the
      observed generation, not the spec it has been edited to since. */
  lemma BuildingNamesItsPod(cfg: Config, trace: seq<Action>, n: nat)
    requires n < |Run(cfg, Initial(), trace).store.cis|
    ensures
      var st := Run(cfg, Initial(), trace).store;
      var c := st.cis[n].status;
      c.phase == CIBuilding ==> c.buildPod.Some? && BuiltFor(st, c, c.buildPod.value)
  {
    RunBuildInv(cfg, trace);
    var st := Run(cfg, Initial(), trace).store;
    assert StatusOk(st, st.cis[n].generation, st.cis[n].status);
  }

  /** BuildPodLost is never false: the Pod the CI names is gone for good. */
  lemma LostIsTrue(cfg: Config, trace: seq<Action>, n: nat)
    requires n < |Run(cfg, Initial(), trace).store.cis|
    ensures
      var st := Run(cfg, Initial(), trace).store;
      var c := st.cis[n].status;
      c.phase == CIFailed && c.reason == BuildPodLost ==> Gone(st, c.buildPod)
  {
    RunBuildInv(cfg, trace);
    var st := Run(cfg, Initial(), trace).store;
    assert StatusOk(st, st.cis[n].generation, st.cis[n].status);
  }

  /** A pass whose copy names an older Pod than the CI does now commits
      nothing, whichever calls it still makes. */
  lemma OlderPodWritesNothing(cfg: Config, s: State)
    requires s.ci.CIComparing? && s.ci.copy < |s.store.cis|
    requires s.store.cis[s.ci.copy].status.buildPod != Last(s.store.cis).status.buildPod
    ensures CIStep(cfg, s, CICompare) == s.(ci := CIRest)
    ensures forall w :: CIStep(cfg, s.(ci := CIPatching(s.ci.copy, w, 0)), CIPatch) == s.(ci := CIRest)
  {
  }

  lemma AtMostOneLivePod(cfg: Config, trace: seq<Action>, p: nat, q: nat)
    requires p < |Run(cfg, Initial(), trace).store.pods| && q < |Run(cfg, Initial(), trace).store.pods|
    requires !Run(cfg, Initial(), trace).store.pods[p].deleting && !Run(cfg, Initial(), trace).store.pods[q].deleting
    ensures p == q
  {
    RunBuildInv(cfg, trace);
  }

  // ------------------------------------------------- one build a generation

  /** Version n commits the start of a build. */
  predicate Starts(cis: seq<CIVersion>, n: int) {
    0 < n < |cis| && cis[n].status.buildPod != cis[n - 1].status.buildPod
  }

  /** Nothing is left to start for the spec of this version. */
  predicate Settled(c: CIVersion) {
    && Current(c)
    && c.spec.revision != "" && c.spec.dockerfile != ""
    && (Following(c) || c.status.phase == CISucceeded || c.status.phase == CIFailed)
  }

  predicate StartsOnlyOnReady(st: Store, place: CIPlace) {
    match place
    case CIDeleting(i, _, _) => i < |st.cis| && st.cis[i].spec.dockerfile != ""
    case CICreating(i, _) => i < |st.cis| && st.cis[i].spec.dockerfile != ""
    case CIPatching(i, w, _) =>
      && i < |st.cis|
      && (w.ToWaiting? ==> st.cis[i].spec.revision == "" || st.cis[i].spec.dockerfile == "")
      && (w.ToBuilding? ==> st.cis[i].spec.dockerfile != "")
    case _ => true
  }

  ghost predicate OncePerGeneration(cis: seq<CIVersion>) {
    forall m, n | 0 <= m < n && Starts(cis, m) && Starts(cis, n) :: cis[m].generation != cis[n].generation
  }

  ghost predicate OnceInv(s: State) {
    var cis := s.store.cis;
    && BuildInv(s)
    && StartsOnlyOnReady(s.store, s.ci)
    && OncePerGeneration(cis)
    && (forall n | Starts(cis, n) :: cis[n].generation == Last(cis).generation ==> Settled(Last(cis)))
  }

  predicate LookupSucceeds(a: Action) {
    a.ByCI? && a.ci.CIBegin? ==> a.ci.view.svc.Some?
  }

  lemma DecideStartsOnlyOnReady(cfg: Config, st: Store, v: CIView)
    requires CIViewPossible(st, v) && v.svc.Some?
    ensures StartsOnlyOnReady(st, DecideCI(cfg, st, v))
  {
  }

  lemma CIStartsOnlyOnReady(cfg: Config, s: State, a: CIAction)
    requires StartsOnlyOnReady(s.store, s.ci) && LookupSucceeds(ByCI(a))
    requires PlaceOk(s.store, s.ci)
    ensures StartsOnlyOnReady(CIStep(cfg, s, a).store, CIStep(cfg, s, a).ci)
  {
    if a.CIBegin? && s.ci.CIRest? && CIViewPossible(s.store, a.view) {
      DecideStartsOnlyOnReady(cfg, s.store, a.view);
    }
  }

  lemma StepStartsOnlyOnReady(cfg: Config, s: State, a: Action)
    requires StartsOnlyOnReady(s.store, s.ci) && LookupSucceeds(a)
    requires PlaceOk(s.store, s.ci)
    ensures StartsOnlyOnReady(Step(cfg, s, a).store, Step(cfg, s, a).ci)
  {
    if a.ByCI? {
      CIStartsOnlyOnReady(cfg, s, a.ci);
    } else {
      StepExtends(cfg, s, a);
    }
  }

  /** A settled version stays settled while its generation lasts, and no
      commit starts another build of it. */
  lemma SettledStays(st: Store, place: CIPlace, v: CIVersion)
    requires st.cis != [] && Settled(Last(st.cis))
    requires PlaceOk(st, place) && StartsOnlyOnReady(st, place)
    requires Respecified(Last(st.cis), v) || Committed(place, st.cis, v)
    ensures v.generation == Last(st.cis).generation ==> Settled(v)
    ensures v.generation == Last(st.cis).generation ==> v.status.buildPod == Last(st.cis).status.buildPod
  {
  }

  lemma StartIsSettled(st: Store, place: CIPlace, v: CIVersion)
    requires st.cis != []
    requires PlaceOk(st, place) && StartsOnlyOnReady(st, place)
    requires Respecified(Last(st.cis), v) || Committed(place, st.cis, v)
    ensures v.status.buildPod != Last(st.cis).status.buildPod ==> Settled(v) && v.generation == Last(st.cis).generation
  {
  }

  lemma StartsBefore(cis: seq<CIVersion>, v: CIVersion, n: int)
    requires cis != []
    ensures n < |cis| ==> (Starts(cis + [v], n) <==> Starts(cis, n))
    ensures Starts(cis + [v], |cis|) <==> v.status.buildPod != Last(cis).status.buildPod
  {
    var all := cis + [v];
    if 0 < n < |cis| {
      assert all[n] == cis[n] && all[n - 1] == cis[n - 1];
    }
    assert all[|cis| - 1] == Last(cis) && all[|cis|] == v;
  }

  /** Two starts, when version v comes last. */
  lemma GrowOncePair(cis: seq<CIVersion>, v: CIVersion, m: int, n: int)
    requires cis != [] && OncePerGeneration(cis)
    requires 0 <= m < n && Starts(cis + [v], m) && Starts(cis + [v], n)
    requires m < |cis| && Starts(cis, m) && v.status.buildPod != Last(cis).status.buildPod ==>
               cis[m].generation != v.generation
    ensures (cis + [v])[m].generation != (cis + [v])[n].generation
  {
    var all := cis + [v];
    StartsBefore(cis, v, m);
    StartsBefore(cis, v, n);
    assert all[m] == cis[m];
    if n < |cis| {
      assert all[n] == cis[n];
    } else {
      assert all[n] == v;
    }
  }

  /** Adding version v to the history keeps the invariant; settled says
      whether the last version is. */
  lemma GrowOnce(cis: seq<CIVersion>, v: CIVersion, settled: bool)
    requires cis != [] && OncePerGeneration(cis)
    requires forall n | 0 <= n < |cis| :: cis[n].generation <= Last(cis).generation
    requires forall n | Starts(cis, n) :: cis[n].generation == Last(cis).generation ==> settled
    requires v.generation >= Last(cis).generation
    requires settled && v.generation == Last(cis).generation ==>
               Settled(v) && v.status.buildPod == Last(cis).status.buildPod
    requires v.status.buildPod != Last(cis).status.buildPod ==> Settled(v) && v.generation == Last(cis).generation
    ensures OncePerGeneration(cis + [v])
    ensures forall n | Starts(cis + [v], n) :: (cis + [v])[n].generation == v.generation ==> Settled(v)
  {
    var all := cis + [v];
    forall m, n | 0 <= m < n && Starts(all, m) && Starts(all, n)
      ensures all[m].generation != all[n].generation
    {
      GrowOncePair(cis, v, m, n);
    }
    forall n | Starts(all, n) && all[n].generation == v.generation
      ensures Settled(v)
    {
      StartsBefore(cis, v, n);
      if n < |cis| {
        assert all[n] == cis[n] && cis[n].generation <= Last(cis).generation;
      }
    }
  }

  lemma StepOnce(cfg: Config, s: State, a: Action)
    requires OnceInv(s) && LookupSucceeds(a)
    ensures OnceInv(Step(cfg, s, a))
  {
    StepBuildInv(cfg, s, a);
    StepStartsOnlyOnReady(cfg, s, a);
    StepGrowsCI(cfg, s, a);
    var t := Step(cfg, s, a).store;
    if s.store.cis != [] && t.cis != s.store.cis {
      var v := Last(t.cis);
      if Settled(Last(s.store.cis)) {
        SettledStays(s.store, s.ci, v);
      }
      StartIsSettled(s.store, s.ci, v);
      GrowOnce(s.store.cis, v, Settled(Last(s.store.cis)));
    }
  }

  /** While the Service lookup succeeds, stale reads, conflicts and rejected
      Pods never make a CI commit two builds of one spec generation. */
  lemma {:induction false} OneBuildPerGeneration(cfg: Config, trace: seq<Action>)
    requires forall a | a in trace :: LookupSucceeds(a)
    ensures OnceInv(Run(cfg, Initial(), trace))
    ensures OncePerGeneration(Run(cfg, Initial(), trace).store.cis)
  {
    if trace != [] {
      OneBuildPerGeneration(cfg, trace[..|trace| - 1]);
      StepOnce(cfg, Run(cfg, Initial(), trace[..|trace| - 1]), Last(trace));
    }
  }

  /** No build of generation g starts after version k. */
  ghost predicate NoStartAfter(cis: seq<CIVersion>, k: nat, g: nat) {
    forall n | k <= n && Starts(cis, n) :: cis[n].generation != g
  }

  ghost predicate SettledSince(s: State, k: nat, g: nat) {
    && BuildInv(s) && StartsOnlyOnReady(s.store, s.ci)
    && s.store.cis != [] && k <= |s.store.cis|
    && g <= Last(s.store.cis).generation
    && (Last(s.store.cis).generation == g ==> Settled(Last(s.store.cis)))
    && NoStartAfter(s.store.cis, k, g)
  }

  lemma StepSettledSince(cfg: Config, s: State, a: Action, k: nat, g: nat)
    requires SettledSince(s, k, g) && LookupSucceeds(a)
    ensures SettledSince(Step(cfg, s, a), k, g)
  {
    StepBuildInv(cfg, s, a);
    StepStartsOnlyOnReady(cfg, s, a);
    StepGrowsCI(cfg, s, a);
    var t := Step(cfg, s, a).store;
    if t.cis != s.store.cis {
      assert t.cis == s.store.cis + [Last(t.cis)];
      GrowSettled(s, Last(t.cis), k, g);
    }
  }

  /** The version that a step adds after a settled one. */
  lemma GrowSettled(s: State, v: CIVersion, k: nat, g: nat)
    requires SettledSince(s, k, g)
    requires Respecified(Last(s.store.cis), v) || Committed(s.ci, s.store.cis, v)
    ensures
      && g <= v.generation && (v.generation == g ==> Settled(v))
      && NoStartAfter(s.store.cis + [v], k, g)
  {
    var cis := s.store.cis;
    var longer := cis + [v];
    if Last(cis).generation == g {
      SettledStays(s.store, s.ci, v);
    }
    forall n | k <= n && Starts(longer, n)
      ensures longer[n].generation != g
    {
      StartsBefore(cis, v, n);
      assert n < |cis| ==> longer[n] == cis[n];
    }
  }

  /** A settled build is final as long as the Service lookup succeeds: no build
      of that generation starts again, whatever else happens. */
  lemma {:induction false} SettledIsFinal(cfg: Config, s: State, trace: seq<Action>)
    requires BuildInv(s) && StartsOnlyOnReady(s.store, s.ci) && s.store.cis != [] && Settled(Last(s.store.cis))
    requires forall a | a in trace :: LookupSucceeds(a)
    ensures SettledSince(Run(cfg, s, trace), |s.store.cis|, Last(s.store.cis).generation)
  {
    if trace != [] {
      SettledIsFinal(cfg, s, trace[..|trace| - 1]);
      var t := Run(cfg, s, trace[..|trace| - 1]);
      StepSettledSince(cfg, t, Last(trace), |s.store.cis|, Last(s.store.cis).generation);
    }
  }

  // ------------------------------------------------------------ build count

  /** The Pods that some version records as having succeeded. */
  ghost function RecordedPods(cis: seq<CIVersion>): set<Option<nat>> {
    set n | 0 <= n < |cis| && cis[n].status.phase == CISucceeded :: cis[n].status.buildPod
  }

  ghost predicate CountInv(cis: seq<CIVersion>) {
    && (forall m, n | 0 <= m <= n < |cis| :: cis[m].status.buildCount <= cis[n].status.buildCount)
    && (cis != [] ==>
          && Last(cis).status.buildCount == |RecordedPods(cis)|
          && (Last(cis).status.phase == CIBuilding ==> Last(cis).status.buildPod !in RecordedPods(cis)))
  }

  lemma RecordedPodsGrow(cis: seq<CIVersion>, v: CIVersion)
    ensures RecordedPods(cis + [v]) ==
            RecordedPods(cis) + if v.status.phase == CISucceeded then {v.status.buildPod} else {}
  {
    var all := cis + [v];
    forall p | p in RecordedPods(cis)
      ensures p in RecordedPods(all)
    {
      var n :| 0 <= n < |cis| && cis[n].status.phase == CISucceeded && cis[n].status.buildPod == p;
      assert all[n] == cis[n];
    }
    assert all[|cis|] == v;
  }

  /** Adding a version that records no success, or the success of the Pod
      that was building. */
  lemma GrowCount(cis: seq<CIVersion>, v: CIVersion)
    requires cis != [] && CountInv(cis)
    requires
      var last, c := Last(cis).status, v.status;
      if c.buildCount == last.buildCount
      then && (c.phase == CISucceeded ==> last.phase == CISucceeded && c.buildPod == last.buildPod)
           && (c.phase == CIBuilding ==> c.buildPod !in RecordedPods(cis))
      else c.buildCount == last.buildCount + 1 && c.phase == CISucceeded && last.phase == CIBuilding &&
           c.buildPod == last.buildPod
    ensures CountInv(cis + [v])
  {
    RecordedPodsGrow(cis, v);
    GrowMonotone(cis, v);
    assert Last(cis + [v]) == v;
  }

  lemma GrowMonotone(cis: seq<CIVersion>, v: CIVersion)
    requires cis != [] && Last(cis).status.buildCount <= v.status.buildCount
    requires forall m, n | 0 <= m <= n < |cis| :: cis[m].status.buildCount <= cis[n].status.buildCount
    ensures
      var all := cis + [v];
      forall m, n | 0 <= m <= n < |all| :: all[m].status.buildCount <= all[n].status.buildCount
  {
    assert cis[|cis| - 1] == Last(cis);
  }

  lemma UnnamedIsUnrecorded(st: Store, p: nat)
    requires Unnamed(st, p)
    ensures Some(p) !in RecordedPods(st.cis)
  {
  }

  lemma CommitCounts(st: Store, place: CIPlace, v: CIVersion)
    requires st.cis != [] && CountInv(st.cis) && PlaceOk(st, place)
    requires Respecified(Last(st.cis), v) || Committed(place, st.cis, v)
    ensures CountInv(st.cis + [v])
  {
    if !Respecified(Last(st.cis), v) && place.write.ToBuilding? {
      UnnamedIsUnrecorded(st, place.write.pod);
    }
    GrowCount(st.cis, v);
  }

  lemma StepCount(cfg: Config, s: State, a: Action)
    requires BuildInv(s) && CountInv(s.store.cis)
    ensures CountInv(Step(cfg, s, a).store.cis)
  {
    var cis := s.store.cis;
    var t := Step(cfg, s, a).store.cis;
    StepGrowsCI(cfg, s, a);
    if t != cis {
      if cis == [] {
        RecordedPodsGrow(cis, t[0]);
      } else {
        CommitCounts(s.store, s.ci, Last(t));
      }
    }
  }

  /** The build count never decreases and is, at every moment of every run,
      the number of different Pods recorded as succeeded. */
  lemma {:induction false} BuildCountCountsPods(cfg: Config, trace: seq<Action>)
    ensures
      var cis := Run(cfg, Initial(), trace).store.cis;
      && CountInv(cis)
      && (cis != [] ==> Last(cis).status.buildCount == |RecordedPods(cis)|)
  {
    if trace != [] {
      var before := trace[..|trace| - 1];
      BuildCountCountsPods(cfg, before);
      RunBuildInv(cfg, before);
      StepCount(cfg, Run(cfg, Initial(), before), Last(trace));
    }
  }
}
