/** What a whole pass does, by what the specs and statuses that it reads say. */
module Decisions {
  import opened Common
  import opened Objects
  import opened System
  import opened Effects

  // ------------------------------------------------------------- the Service

  /** The validators refuse the repository, the revision, or a path of the
      build that is given. */
  predicate BadSource(cfg: Config, spec: ServiceSpec) {
    || !cfg.validURL(spec.repo)
    || !cfg.validRevision(spec.revision)
    || (spec.build.Some? && spec.build.value.contextDir != "" && !cfg.validPath(spec.build.value.contextDir))
    || (spec.build.Some? && spec.build.value.dockerfilePath != "" && !cfg.validPath(spec.build.value.dockerfilePath))
  }

  lemma BadIsNotValid(cfg: Config, spec: ServiceSpec)
    ensures BadSource(cfg, spec) <==> !ValidSource(cfg, spec)
  {
  }

  /** The Service has a finished discovery for its current spec. */
  predicate Known(c: ServiceVersion) {
    && c.status.observed == c.generation && c.status.ciRef != ""
    && (|| c.status.phase == SvcBuilding
        || c.status.phase == SvcReady
        || (c.status.phase == SvcFailed && c.status.reason in {ReasonCIFailed, ReasonCDFailed}))
  }

  lemma KnownIsDiscovered(c: ServiceVersion)
    ensures Known(c) <==> Discovered(c.generation, c.status)
  {
  }

  /** What a pass may point the CI at: the commit that the remote answers, with
      the attached plugins; for a known commit as it was discovered, and for
      another one as it is discovered now, under the name of the stored
      Dockerfile. */
  predicate PointsAt(cfg: Config, c: ServiceVersion, v: SvcView, t: Target) {
    && v.remote == Some(t.sha) && v.plugins == Some(t.plugins)
    && if Known(c) && t.sha == c.status.latestRevision then
         t.language == c.status.language && t.dockerfile == c.status.dockerfile
       else
         && v.discovery.Stack?
         && t.language == v.discovery.language && t.dockerfile == cfg.service + "-dockerfile-" + v.discovery.hash
  }

  /** No part of a pass but its first call points the CI. */
  predicate NoneEnsured(acts: seq<Effect>) {
    forall e | e in acts :: !e.EnsuredCI?
  }

  lemma WrittenEnsuresNone(r: Reply, st: Store, i: nat, s: ServiceStatus, acts: seq<Effect>, answer: Answer)
    requires ServiceWritten(r, st, i, s, acts, answer)
    ensures NoneEnsured(acts)
  {
  }

  lemma FinishedEnsuresNone(cfg: Config, replies: Replies, k: nat, was: Store, st: Store, i: nat, s: ServiceStatus,
                            acts: seq<Effect>, answer: Answer)
    requires ServiceFinished(cfg, replies, k, was, st, i, s, acts, answer)
    ensures NoneEnsured(acts)
  {
    if acts != [] {
      assert acts == [acts[0]] + acts[1..];
      if acts[1..] != [] {
        assert acts[1..] == [acts[1]] + acts[2..];
        assert acts[2..] == acts[1..][1..];
      }
    }
  }

  /** Whatever a Service pass asks of its CI is the remote's commit with what
      was discovered for it, and only a Service with a good source asks. */
  lemma PassPointsAtRemote(cfg: Config, replies: Replies, k: nat, was: Store, st: Store, v: SvcView,
                           acts: seq<Effect>, answer: Answer, e: Effect)
    requires v.copy < |was.svcs| <= |st.svcs| && was.svcs == st.svcs[..|was.svcs|]
    requires ServicePassDid(cfg, replies, k, was, st, DecideService(cfg, was, v), acts, answer)
    requires e in acts && e.EnsuredCI?
    ensures
      var c := was.svcs[v.copy];
      e.copy == v.copy && e == acts[0] && !BadSource(cfg, c.spec) && v.token && PointsAt(cfg, c, v, e.target)
  {
    var c, place := was.svcs[v.copy], DecideService(cfg, was, v);
    BadIsNotValid(cfg, c.spec);
    KnownIsDiscovered(c);
    match place {
      case SvcPatching(i, s) => WrittenEnsuresNone(replies(k), st, i, s, acts, answer);
      case SvcPointing(i, t, found) => PointedEnsures(cfg, replies, k, was, st, i, t, found, acts, answer, e);
      case _ =>
    }
  }

  lemma PointedEnsures(cfg: Config, replies: Replies, k: nat, was: Store, st: Store, i: nat, t: Target, found: bool,
                       acts: seq<Effect>, answer: Answer, e: Effect)
    requires i < |st.svcs| && ServicePointed(cfg, replies, k, was, st, i, t, found, acts, answer)
    requires e in acts && e.EnsuredCI?
    ensures e == EnsuredCI(i, t) && e == acts[0]
  {
    var c := st.svcs[i];
    if acts[0].EnsuredCI? {
      var s := if found then Recorded(cfg, c, t) else c.status.(ciRef := cfg.ci);
      FinishedEnsuresNone(cfg, replies, k + 1, was, st, i, s, acts[1..], answer);
      assert acts == [acts[0]] + acts[1..];
    }
  }

  /** With a bad source a pass does nothing but say so, once for each spec. */
  lemma BadSourceIsRefused(cfg: Config, replies: Replies, k: nat, was: Store, st: Store, v: SvcView,
                           acts: seq<Effect>, answer: Answer)
    requires v.copy < |was.svcs| <= |st.svcs| && BadSource(cfg, was.svcs[v.copy].spec)
    requires ServicePassDid(cfg, replies, k, was, st, DecideService(cfg, was, v), acts, answer)
    ensures
      var c := was.svcs[v.copy];
      var refused := c.status.(phase := SvcFailed, reason := OwnFault(InvalidSource), observed := c.generation);
      acts == [] || acts == [WroteService(v.copy, refused)]
    ensures
      var c := was.svcs[v.copy];
      c.status.phase == SvcFailed && c.status.observed == c.generation ==> acts == []
  {
    BadIsNotValid(cfg, was.svcs[v.copy].spec);
  }

  // ------------------------------------------------------------------- the CI

  /** The CI asks for a build that its Service can have: a full SHA and a
      Dockerfile, an image with a registry and a repository, and a URL and a
      context path that the validators take. */
  predicate GoodBuild(cfg: Config, ci: CISpec, svc: ServiceSpec) {
    && |ci.revision| == 40 && (forall x | x in ci.revision :: '0' <= x <= '9' || 'a' <= x <= 'f')
    && ci.dockerfile != ""
    && ci.registry != "" && ci.repo != ""
    && cfg.validURL(svc.repo)
    && (ci.contextDir == "" || cfg.validPath(ci.contextDir))
  }

  /** This revision and generation are already built, or being built. */
  predicate Underway(c: CIVersion) {
    && c.status.buildingRevision == c.spec.revision && c.status.observed == c.generation
    && (|| (c.status.phase == CIBuilding && c.status.buildPod.Some?)
        || c.status.phase == CISucceeded
        || c.status.phase == CIFailed)
  }

  lemma WrittenStartsNone(replies: Replies, k: nat, st: Store, i: nat, j: nat, w: CIWrite, acts: seq<Effect>,
                          answer: Answer)
    requires CIWritten(replies, k, st, i, j, w, acts, answer)
    ensures forall e | e in acts :: !e.MarkedPods? && !e.CreatedPod?
  {
    if acts != [] {
      assert acts == [acts[0]] + acts[1..];
    }
  }

  lemma LostStartsNone(replies: Replies, k: nat, st: Store, i: nat, acts: seq<Effect>, answer: Answer)
    requires BuildLost(replies, k, st, i, acts, answer)
    ensures forall e | e in acts :: !e.MarkedPods? && !e.CreatedPod?
  {
    if CIWritten(replies, k + 1, st, i, 0, ToLost, acts, answer) {
      WrittenStartsNone(replies, k + 1, st, i, 0, ToLost, acts, answer);
    }
  }

  lemma FollowedStartsNone(replies: Replies, k: nat, st: Store, i: nat, j: nat, acts: seq<Effect>, answer: Answer)
    requires BuildFollowed(replies, k, st, i, j, acts, answer)
    ensures forall e | e in acts :: !e.MarkedPods? && !e.CreatedPod?
  {
    if phase :| CIWritten(replies, k + 1, st, i, j, FollowWrite(phase), acts, answer) {
      WrittenStartsNone(replies, k + 1, st, i, j, FollowWrite(phase), acts, answer);
    } else if BuildLost(replies, k + 1, st, i, acts, answer) {
      LostStartsNone(replies, k + 1, st, i, acts, answer);
    }
  }

  /** A CI pass marks Pods or creates one only for a good build that is not
      underway, with its Secrets and plugins at hand. */
  lemma PassStartsGoodBuilds(cfg: Config, replies: Replies, k: nat, was: Store, st: Store, v: CIView,
                             acts: seq<Effect>, answer: Answer, e: Effect)
    requires CIViewPossible(was, v)
    requires CIPassDid(replies, k, st, DecideCI(cfg, was, v), acts, answer)
    requires e in acts && (e.MarkedPods? || e.CreatedPod?)
    ensures v.svc.Some? && v.prep.Prepared?
    ensures GoodBuild(cfg, was.cis[v.copy].spec, was.svcs[v.svc.value].spec) && !Underway(was.cis[v.copy])
  {
    match DecideCI(cfg, was, v) {
      case CIPatching(i, w, j) => WrittenStartsNone(replies, k, st, i, j, w, acts, answer);
      case CIConfirming(i, j) => FollowedStartsNone(replies, k, st, i, j, acts, answer);
      case CIDeleting(_, _, _) =>
      case _ =>
    }
  }

  /** A build that is not good is refused: it waits for a revision and a
      Dockerfile, and fails without them being good. */
  lemma BadBuildIsRefused(cfg: Config, replies: Replies, k: nat, was: Store, st: Store, v: CIView,
                          acts: seq<Effect>, answer: Answer)
    requires CIViewPossible(was, v) && v.svc.Some?
    requires !GoodBuild(cfg, was.cis[v.copy].spec, was.svcs[v.svc.value].spec)
    requires CIPassDid(replies, k, st, DecideCI(cfg, was, v), acts, answer)
    ensures
      var c := was.cis[v.copy].spec;
      var w := if c.revision == "" || c.dockerfile == "" then ToWaiting else ToFailed(InvalidSpec);
      acts == [] || acts == [WroteCI(v.copy, w)]
  {
    assert DecideCI(cfg, was, v).CIPatching?;
  }
}
