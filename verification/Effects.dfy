/** What the steps of a pass do: the reads that decide and the writes that are
    accepted, and what a whole pass may do from where it starts. */
module Effects {
  import opened Common
  import opened Objects
  import opened System
  import opened Fields
  import opened Histories
  import opened BuildSafety

  datatype Effect =
    | BeganCI(view: CIView)
    | MarkedPods(count: nat)
    | CreatedPod(copy: nat, svc: nat, pod: nat)
    | WroteCI(copy: nat, write: CIWrite)
    | EnsuredCD(copy: nat, svc: nat)
    | BeganService(svcView: SvcView)
    | EnsuredCI(copy: nat, target: Target)
    | SyncedCD(listed: Option<nat>)
    | Derived(ci: Option<nat>, cd: Option<nat>)
    | WroteService(copy: nat, st: ServiceStatus)
    | BeganCD(cdCopy: CDVersion)
    | ReadCI(ci: Option<nat>, allowed: bool)
    | Applied(spec: CDSpec, image: string, d: Deployment)
    | WroteCD(from: CDStatus, to: CDStatus)
    | GaveUp

  function CIEffect(cfg: Config, s: State, a: CIAction): seq<Effect> {
    var st := s.store;
    match a
    case CIBegin(v) => if s.ci.CIRest? && CIViewPossible(st, v) then [BeganCI(v)] else []
    case CIDeletePods => if s.ci.CIDeleting? then [MarkedPods(|st.pods|)] else []
    case CICreatePod(outcome) =>
      if s.ci.CICreating? && s.ci.copy < |st.cis| && s.ci.svc < |st.svcs| && outcome != NotCreated
      then [CreatedPod(s.ci.copy, s.ci.svc, |st.pods|)] else []
    case CIPatch =>
      if s.ci.CIPatching? && s.ci.copy + 1 == |st.cis| then [WroteCI(s.ci.copy, s.ci.write)] else []
    case CIEnsureCD(seen) =>
      if s.ci.CIEnsuring? && s.ci.copy < |st.cis| && s.ci.svc < |st.svcs| && Seen(st.cds, seen)
         && PutCD(cfg, st.cds, seen, st.cis[s.ci.copy].spec, st.svcs[s.ci.svc].spec).Some?
      then [EnsuredCD(s.ci.copy, s.ci.svc)] else []
    case CIStop => [GaveUp]
    case _ => []
  }

  function SvcEffect(cfg: Config, s: State, a: SvcAction): seq<Effect> {
    var st := s.store;
    match a
    case SvcBegin(v) => if s.svc.SvcRest? && v.copy < |st.svcs| then [BeganService(v)] else []
    case SvcEnsureCI(seen, refused) =>
      if s.svc.SvcPointing? && s.svc.copy < |st.svcs| && Seen(st.cis, seen) && !refused
         && PutCI(cfg, st.cis, seen, st.svcs[s.svc.copy].spec, s.svc.target).Some?
      then [EnsuredCI(s.svc.copy, s.svc.target)] else []
    case SvcSyncCD(listed) =>
      if s.svc.SvcSyncing? && s.svc.copy < |st.svcs| && Seen(st.cds, listed) then [SyncedCD(listed)] else []
    case SvcDerive(ci, cd) =>
      if s.svc.SvcDeriving? && Seen(st.cis, ci) && Seen(st.cds, cd) then [Derived(ci, cd)] else []
    case SvcPatch =>
      if s.svc.SvcPatching? && s.svc.copy + 1 == |st.svcs| then [WroteService(s.svc.copy, s.svc.st)] else []
    case SvcStop => [GaveUp]
  }

  function CDEffect(s: State, a: CDAction): seq<Effect> {
    var st := s.store;
    match a
    case CDBegin => if s.cd.CDRest? && st.cds != [] then [BeganCD(Last(st.cds))] else []
    case CDReadCI(seen, allowed) => if s.cd.CDReading? && Seen(st.cis, seen) then [ReadCI(seen, allowed)] else []
    case CDDeploy(seen, outcome) =>
      if s.cd.CDApplying? && Seen(st.deps, seen) && outcome != DeployRefused then
        (match PutDeployment(st.deps, seen, WantedDeployment(s.cd.copy.spec, s.cd.image))
         case None => []
         case Some((_, d)) => [Applied(s.cd.copy.spec, s.cd.image, d)])
      else []
    case CDPatch => if s.cd.CDPatching? && st.cds != [] then [WroteCD(s.cd.copy.status, s.cd.st)] else []
    case CDStop => [GaveUp]
  }

  function EffectOf(cfg: Config, s: State, a: Action): seq<Effect> {
    match a
    case ByEnv(_) => []
    case ByCI(c) => CIEffect(cfg, s, c)
    case BySvc(v) => SvcEffect(cfg, s, v)
    case ByCD(d) => CDEffect(s, d)
  }

  // --------------------------------------------- what an effect leaves for good

  predicate CIVersionIs(cis: seq<CIVersion>, copy: nat, st: CIStatus) {
    copy < |cis| &&
    (cis[copy].status == st || (copy + 1 < |cis| && cis[copy + 1] == cis[copy].(status := st)))
  }

  predicate ServiceVersionIs(svcs: seq<ServiceVersion>, copy: nat, st: ServiceStatus) {
    copy < |svcs| &&
    (svcs[copy].status == st || (copy + 1 < |svcs| && svcs[copy + 1] == svcs[copy].(status := st)))
  }

  predicate Sent<T(==)>(now: T, from: T, to: T) {
    to != from ==> now == to
  }

  /** The fields that a merge patch sends are in the object. */
  predicate Carries(now: CDStatus, from: CDStatus, to: CDStatus) {
    Sent(now.phase, from.phase, to.phase) && Sent(now.revision, from.revision, to.revision)
    && Sent(now.image, from.image, to.image)
  }

  ghost predicate Holds(cfg: Config, st: Store, e: Effect) {
    match e
    case MarkedPods(count) => count <= |st.pods| && forall p | 0 <= p < count :: st.pods[p].deleting
    case CreatedPod(i, j, p) =>
      i < |st.cis| && j < |st.svcs| && MadeFrom(st, p, st.cis[i].spec) && st.pods[p].svc == st.svcs[j].spec
    case WroteCI(i, w) => i < |st.cis| && CIVersionIs(st.cis, i, Apply(w, st.cis[i]))
    case EnsuredCD(i, j) =>
      i < |st.cis| && j < |st.svcs| &&
      exists n | 0 <= n < |st.cds| ::
        CDFields(cfg, st.cis[i].spec, st.svcs[j].spec, st.cds[n].spec, st.cds[n].spec)
    case EnsuredCI(i, target) =>
      i < |st.svcs| &&
      (cfg.service != "" ==>
         exists n | 0 <= n < |st.cis| ::
           st.cis[n].language == target.language &&
           CIFields(cfg, st.svcs[i].spec, target, st.cis[n].spec, st.cis[n].spec))
    case WroteService(i, s) => ServiceVersionIs(st.svcs, i, s)
    case Applied(spec, image, d) => d in st.deps && DeploymentFields(spec, image, d.spec)
    case WroteCD(from, to) => exists n | 0 <= n < |st.cds| :: Carries(st.cds[n].status, from, to)
    case _ => true
  }

  lemma HoldsExtends(cfg: Config, a: Store, b: Store, e: Effect)
    requires Extends(a, b) && Holds(cfg, a, e)
    ensures Holds(cfg, b, e)
  {
    match e
    case EnsuredCD(i, j) =>
      var n :| 0 <= n < |a.cds| && CDFields(cfg, a.cis[i].spec, a.svcs[j].spec, a.cds[n].spec, a.cds[n].spec);
      assert b.cds[n] == a.cds[n];
    case EnsuredCI(i, target) =>
      if cfg.service != "" {
        var n :| 0 <= n < |a.cis| && a.cis[n].language == target.language &&
                 CIFields(cfg, a.svcs[i].spec, target, a.cis[n].spec, a.cis[n].spec);
        assert b.cis[n] == a.cis[n];
      }
    case WroteCD(from, to) =>
      var n :| 0 <= n < |a.cds| && Carries(a.cds[n].status, from, to);
      assert b.cds[n] == a.cds[n];
    case _ =>
  }

  lemma CIEffectHolds(cfg: Config, s: State, a: CIAction)
    requires s.ci.CIPatching? ==> s.ci.copy < |s.store.cis|
    ensures forall e | e in CIEffect(cfg, s, a) :: Holds(cfg, CIStep(cfg, s, a).store, e)
  {
    var t := CIStep(cfg, s, a).store;
    if a.CIEnsureCD? && CIEffect(cfg, s, a) != [] {
      var ci, svc := s.store.cis[s.ci.copy].spec, s.store.svcs[s.ci.svc].spec;
      PutCDFields(cfg, s.store.cds, a.cdSeen, ci, svc);
      var n := if t.cds == s.store.cds then a.cdSeen.value else |t.cds| - 1;
      assert CDFields(cfg, ci, svc, t.cds[n].spec, t.cds[n].spec);
    }
  }

  lemma PutCIPoints(cfg: Config, cis: seq<CIVersion>, seen: Option<nat>, svc: ServiceSpec, target: Target)
    requires cfg.service != "" && Seen(cis, seen) && PutCI(cfg, cis, seen, svc, target).Some?
    ensures
      var r := PutCI(cfg, cis, seen, svc, target).value;
      exists n | 0 <= n < |r| ::
        r[n].language == target.language && CIFields(cfg, svc, target, r[n].spec, r[n].spec)
  {
    PutCIFields(cfg, cis, seen, svc, target);
    var r := PutCI(cfg, cis, seen, svc, target).value;
    var n := if r == cis then seen.value else |r| - 1;
    assert r[n].language == target.language && CIFields(cfg, svc, target, r[n].spec, r[n].spec);
  }

  lemma SvcEffectHolds(cfg: Config, s: State, a: SvcAction)
    ensures forall e | e in SvcEffect(cfg, s, a) :: Holds(cfg, SvcStep(cfg, s, a).store, e)
  {
    if a.SvcEnsureCI? && SvcEffect(cfg, s, a) != [] && cfg.service != "" {
      PutCIPoints(cfg, s.store.cis, a.ciSeen, s.store.svcs[s.svc.copy].spec, s.svc.target);
    }
  }

  lemma CDEffectHolds(cfg: Config, s: State, a: CDAction)
    ensures forall e | e in CDEffect(s, a) :: Holds(cfg, CDStep(s, a).store, e)
  {
    var t := CDStep(s, a).store;
    if a.CDDeploy? && CDEffect(s, a) != [] {
      PutDeploymentFields(s.store.deps, a.depSeen, s.cd.copy.spec, s.cd.image);
    }
    if a.CDPatch? && CDEffect(s, a) != [] {
      assert Carries(t.cds[|t.cds| - 1].status, s.cd.copy.status, s.cd.st);
    }
  }

  lemma EffectHolds(cfg: Config, s: State, a: Action)
    requires PlaceOk(s.store, s.ci)
    ensures forall e | e in EffectOf(cfg, s, a) :: Holds(cfg, Step(cfg, s, a).store, e)
  {
    match a
    case ByEnv(_) =>
    case ByCI(c) => CIEffectHolds(cfg, s, c);
    case BySvc(v) => SvcEffectHolds(cfg, s, v);
    case ByCD(d) => CDEffectHolds(cfg, s, d);
  }

  // --------------------------------------------------- what a whole pass does

  /** How a call or a pass ends: done, refused because the copy is stale,
      refused for another reason, or with the connection lost. */
  datatype Answer = Done | Conflict | Refused | Lost

  /** What meets one call: whether it is lost; what becomes of a create, an
      ensureCI or a Deployment; and which versions a cached read returns, if
      the store has so many. */
  datatype Reply = Reply(
    lost: bool,
    create: CreateOutcome,
    refused: bool,
    deploy: DeployOutcome,
    cached: nat,
    alsoCached: nat)

  /** The replies to the calls from some call on. */
  type Replies = nat -> Reply

  function CachedIn<T>(versions: seq<T>, cached: nat): Option<nat> {
    if cached < |versions| then Some(cached) else None
  }

  /** What the cache gave when there were at least so many versions. */
  predicate FromCache(seen: Option<nat>, cached: nat, least: nat) {
    if seen.Some? then seen.value == cached else cached >= least
  }

  /** A call that was lost, and nothing after it. */
  predicate GaveUpThere(acts: seq<Effect>, answer: Answer) {
    acts == [] && answer.Lost?
  }

  /** ensureCD, from CI version i and Service version j. */
  predicate CDEnsured(r: Reply, st: Store, i: nat, j: nat, acts: seq<Effect>, answer: Answer) {
    if r.lost then GaveUpThere(acts, answer)
    else if acts == [] then answer.Conflict? && st.cds != []
    else acts == [EnsuredCD(i, j)] && answer.Done?
  }

  /** The status write of a CI pass, and after a success the CD. It conflicts
      only if the CI has a later version. */
  predicate CIWritten(replies: Replies, k: nat, st: Store, i: nat, j: nat, w: CIWrite, acts: seq<Effect>,
                      answer: Answer) {
    if replies(k).lost then GaveUpThere(acts, answer)
    else if acts == [] then answer.Conflict? && i + 1 < |st.cis|
    else
      acts[0] == WroteCI(i, w) &&
      if w.ToSucceeded? then CDEnsured(replies(k + 1), st, i, j, acts[1..], answer)
      else |acts| == 1 && answer.Done?
  }

  /** The create of a Pod and then its record: the Pod, or that there was an
      error, also where the Pod was created nonetheless. */
  predicate BuildRun(replies: Replies, k: nat, st: Store, i: nat, j: nat, acts: seq<Effect>, answer: Answer) {
    if replies(k).lost then GaveUpThere(acts, answer)
    else if replies(k).create == NotCreated then CIWritten(replies, k + 1, st, i, 0, ToRejected, acts, answer)
    else
      && acts != [] && acts[0].CreatedPod? && acts[0].copy == i && acts[0].svc == j
      && CIWritten(replies, k + 1, st, i, 0,
                   if replies(k).create == Created then ToBuilding(acts[0].pod) else ToRejected, acts[1..], answer)
  }

  predicate BuildStarted(replies: Replies, k: nat, st: Store, i: nat, j: nat, allowed: bool, acts: seq<Effect>,
                         answer: Answer) {
    if replies(k).lost then GaveUpThere(acts, answer)
    else
      && acts != [] && acts[0].MarkedPods?
      && if allowed then BuildRun(replies, k + 1, st, i, j, acts[1..], answer)
         else CIWritten(replies, k + 1, st, i, 0, ToFailed(SecretNotAllowed), acts[1..], answer)
  }

  /** A later version of the CI names another Pod. */
  predicate Renamed(st: Store, i: nat) {
    i < |st.cis| &&
    exists n | i < n < |st.cis| :: st.cis[n].status.buildPod != st.cis[i].status.buildPod
  }

  /** The Pod was gone: that is written, unless the copy was stale. */
  predicate BuildLost(replies: Replies, k: nat, st: Store, i: nat, acts: seq<Effect>, answer: Answer) {
    if replies(k).lost then GaveUpThere(acts, answer)
    else
      || (acts == [] && answer.Done? && Renamed(st, i))
      || CIWritten(replies, k + 1, st, i, 0, ToLost, acts, answer)
  }

  /** A build whose Pod the cache has not. */
  predicate BuildFollowed(replies: Replies, k: nat, st: Store, i: nat, j: nat, acts: seq<Effect>, answer: Answer) {
    if replies(k).lost then GaveUpThere(acts, answer)
    else
      || (exists phase :: CIWritten(replies, k + 1, st, i, j, FollowWrite(phase), acts, answer))
      || BuildLost(replies, k + 1, st, i, acts, answer)
  }

  /** What a CI pass did that decided on this place, from call k on, when the
      store had become st. */
  predicate CIPassDid(replies: Replies, k: nat, st: Store, place: CIPlace, acts: seq<Effect>, answer: Answer) {
    match place
    case CIRest => acts == [] && answer.Done?
    case CIPatching(i, w, j) => CIWritten(replies, k, st, i, j, w, acts, answer)
    case CIEnsuring(i, j) => CDEnsured(replies(k), st, i, j, acts, answer)
    case CIConfirming(i, j) => BuildFollowed(replies, k, st, i, j, acts, answer)
    case CIDeleting(i, j, allowed) => BuildStarted(replies, k, st, i, j, allowed, acts, answer)
    case CICreating(i, j) => BuildRun(replies, k, st, i, j, acts, answer)
    case CIComparing(i) => BuildLost(replies, k, st, i, acts, answer)
  }

  predicate ServiceWritten(r: Reply, st: Store, i: nat, s: ServiceStatus, acts: seq<Effect>, answer: Answer) {
    if r.lost then GaveUpThere(acts, answer)
    else if acts == [] then answer.Conflict? && i + 1 < |st.svcs|
    else acts == [WroteService(i, s)] && answer.Done?
  }

  /** The CD reference follows the CD that was listed. */
  function Listed(cfg: Config, s: ServiceStatus, listed: Option<nat>): ServiceStatus {
    s.(cdRef := if listed.Some? then cfg.service + "-cd" else "")
  }

  /** setPipelinePhase and the status write. */
  predicate ServiceDerived(replies: Replies, k: nat, was: Store, st: Store, i: nat, s: ServiceStatus,
                           acts: seq<Effect>, answer: Answer) {
    if replies(k).lost then GaveUpThere(acts, answer)
    else
      && acts != [] && acts[0].Derived?
      && FromCache(acts[0].ci, replies(k).cached, |was.cis|)
      && FromCache(acts[0].cd, replies(k).alsoCached, |was.cds|)
      && Seen(st.cis, acts[0].ci) && Seen(st.cds, acts[0].cd)
      && ServiceWritten(replies(k + 1), st, i, PipelinePhase(s, At(st.cis, acts[0].ci), At(st.cds, acts[0].cd)),
                        acts[1..], answer)
  }

  /** The end of a Service pass: syncCD, setPipelinePhase, the status write. */
  predicate ServiceFinished(cfg: Config, replies: Replies, k: nat, was: Store, st: Store, i: nat, s: ServiceStatus,
                            acts: seq<Effect>, answer: Answer) {
    if replies(k).lost then GaveUpThere(acts, answer)
    else
      && acts != [] && acts[0].SyncedCD?
      && FromCache(acts[0].listed, replies(k).cached, |was.cds|)
      && ServiceDerived(replies, k + 1, was, st, i, Listed(cfg, s, acts[0].listed), acts[1..], answer)
  }

  /** From the call of ensureCI on: it is refused, or done, or else the copy of
      the CI was not the current one. */
  predicate ServicePointed(cfg: Config, replies: Replies, k: nat, was: Store, st: Store, i: nat, target: Target,
                           found: bool, acts: seq<Effect>, answer: Answer)
    requires i < |st.svcs|
  {
    var c := st.svcs[i];
    if replies(k).lost then GaveUpThere(acts, answer)
    else if replies(k).refused then
      if found then
        ServiceWritten(replies(k + 1), st, i, MarkFailed(c.status, c.generation, CIInitFailed), acts, answer)
      else acts == [] && answer.Refused?
    else if acts != [] && acts[0].EnsuredCI? then
      && acts[0] == EnsuredCI(i, target)
      && ServiceFinished(cfg, replies, k + 1, was, st, i,
                         if found then Recorded(cfg, c, target) else c.status.(ciRef := cfg.ci), acts[1..], answer)
    else
      && st.cis != []
      && if found then ServiceWritten(replies(k + 1), st, i, SetPhase(c.status, SvcDiscovering), acts, answer)
         else acts == [] && answer.Conflict?
  }

  /** What a Service pass did that decided on this place. */
  predicate ServicePassDid(cfg: Config, replies: Replies, k: nat, was: Store, st: Store, place: SvcPlace,
                           acts: seq<Effect>, answer: Answer) {
    match place
    case SvcRest => acts == [] && answer.Done?
    case SvcPatching(i, s) => ServiceWritten(replies(k), st, i, s, acts, answer)
    case SvcPointing(i, target, found) =>
      i < |st.svcs| && ServicePointed(cfg, replies, k, was, st, i, target, found, acts, answer)
    case SvcSyncing(i, s) => ServiceFinished(cfg, replies, k, was, st, i, s, acts, answer)
    case SvcDeriving(i, s) => ServiceDerived(replies, k, was, st, i, s, acts, answer)
  }

  predicate CDWritten(r: Reply, v: CDVersion, st: CDStatus, acts: seq<Effect>, answer: Answer) {
    if r.lost then GaveUpThere(acts, answer) else acts == [WroteCD(v.status, st)] && answer.Done?
  }

  /** From the image on: the Deployment, then the status it gives. Unless it
      was refused it is applied, or the copy of it was not the current one. */
  predicate CDRolledOut(replies: Replies, k: nat, st: Store, v: CDVersion, image: string, revision: string,
                        acts: seq<Effect>, answer: Answer) {
    var failed := v.status.(phase := CDFailed);
    if replies(k).lost then GaveUpThere(acts, answer)
    else if replies(k).deploy == DeployRefused then CDWritten(replies(k + 1), v, failed, acts, answer)
    else if acts != [] && acts[0].Applied? then
      && acts[0].spec == v.spec && acts[0].image == image
      && if replies(k).deploy == Deployed then
           CDWritten(replies(k + 1), v, RolloutStatus(v.status, image, revision, acts[0].d), acts[1..], answer)
         else if replies(k).deploy == ExposeConflict then |acts| == 1 && answer.Conflict?
         else CDWritten(replies(k + 1), v, failed, acts[1..], answer)
    else
      && st.deps != []
      && (CDWritten(replies(k + 1), v, failed, acts, answer) || (acts == [] && answer.Conflict?))
  }

  /** From the CI that was read on. */
  predicate CDDecided(replies: Replies, k: nat, st: Store, v: CDVersion, allowed: bool, ci: Option<CIVersion>,
                      acts: seq<Effect>, answer: Answer) {
    if ci.None? || ci.value.status.image == "" then
      CDWritten(replies(k), v, v.status.(phase := CDWaiting), acts, answer)
    else if !allowed then CDWritten(replies(k), v, v.status.(phase := CDFailed), acts, answer)
    else CDRolledOut(replies, k, st, v, ci.value.status.image, ci.value.status.revision, acts, answer)
  }

  /** What a CD pass did that began with this version. */
  predicate CDPassDid(replies: Replies, k: nat, was: Store, st: Store, v: CDVersion, allowed: bool,
                      acts: seq<Effect>, answer: Answer) {
    if replies(k).lost then GaveUpThere(acts, answer)
    else
      && acts != [] && acts[0].ReadCI? && acts[0].allowed == allowed
      && FromCache(acts[0].ci, replies(k).cached, |was.cis|) && Seen(st.cis, acts[0].ci)
      && CDDecided(replies, k + 1, st, v, allowed, At(st.cis, acts[0].ci), acts[1..], answer)
  }
}
