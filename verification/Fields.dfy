/** What the fields of the objects that the reconcilers write hold, each field
    by itself, and the versions that a create, an update or a patch leaves. */
module Fields {
  import opened Common
  import opened Objects
  import opened System

  // --------------------------------------------------------- names of images

  predicate Slashes(s: string) {
    forall i | 0 <= i < |s| :: s[i] == '/'
  }

  /** host is the registry without one final slash. */
  predicate HostOf(registry: string, host: string) {
    if registry != "" && registry[|registry| - 1] == '/' then registry == host + "/" else host == registry
  }

  /** path is the repository without the slashes around it. */
  ghost predicate PathOf(repo: string, path: string) {
    && (path != "" ==> path[0] != '/' && path[|path| - 1] != '/')
    && exists a, b :: Surrounded(repo, a, path, b)
  }

  predicate Surrounded(repo: string, a: string, path: string, b: string) {
    Slashes(a) && Slashes(b) && repo == a + path + b
  }

  /** tag is the start of the SHA, twelve characters if it has so many. */
  predicate TagOf(sha: string, tag: string) {
    tag <= sha && |tag| <= 12 && (|tag| == 12 || tag == sha)
  }

  predicate Named(spec: CISpec, sha: string, image: string, host: string, path: string, tag: string)
  {
    HostOf(spec.registry, host) && TagOf(sha, tag) && image == host + "/" + path + ":" + tag
  }

  /** image is registry/repo:<first 12 characters of the commit SHA>. */
  ghost predicate NamesImage(spec: CISpec, sha: string, image: string) {
    exists host, path, tag :: PathOf(spec.repo, path) && Named(spec, sha, image, host, path, tag)
  }

  lemma {:induction false} TrimLeftIs(a: string, s: string)
    requires Slashes(a) && (s != "" ==> s[0] != '/')
    ensures TrimLeftSlashes(a + s) == s
  {
    if a == "" {
      assert a + s == s;
    } else {
      TrimLeftIs(a[1..], s);
      assert (a + s)[1..] == a[1..] + s;
    }
  }

  lemma {:induction false} TrimRightIs(s: string, b: string)
    requires Slashes(b) && (s != "" ==> s[|s| - 1] != '/')
    ensures TrimRightSlashes(s + b) == s
  {
    if b == "" {
      assert s + b == s;
    } else {
      TrimRightIs(s, b[..|b| - 1]);
      assert (s + b)[..|s + b| - 1] == s + b[..|b| - 1];
    }
  }

  /** A text is what the trimming leaves, with slashes around it. */
  lemma {:induction false} LeftSlashes(s: string) returns (a: string)
    ensures Slashes(a) && s == a + TrimLeftSlashes(s)
    ensures TrimLeftSlashes(s) != "" ==> TrimLeftSlashes(s)[0] != '/'
  {
    a := "";
    if s != "" && s[0] == '/' {
      var rest := LeftSlashes(s[1..]);
      a := "/" + rest;
    }
  }

  lemma {:induction false} RightSlashes(s: string) returns (b: string)
    ensures Slashes(b) && s == TrimRightSlashes(s) + b
    ensures TrimRightSlashes(s) != "" ==> Last(TrimRightSlashes(s)) != '/'
  {
    b := "";
    if s != "" && s[|s| - 1] == '/' {
      var rest := RightSlashes(s[..|s| - 1]);
      b := rest + "/";
    }
  }

  lemma TrimIs(repo: string, path: string)
    ensures PathOf(repo, path) <==> path == TrimRightSlashes(TrimLeftSlashes(repo))
  {
    if PathOf(repo, path) {
      var a, b :| Surrounded(repo, a, path, b);
      if path == "" {
        assert repo == (a + b) + "";
        TrimLeftIs(a + b, "");
      } else {
        assert repo == a + (path + b);
        TrimLeftIs(a, path + b);
        TrimRightIs(path, b);
      }
    }
    var left := TrimLeftSlashes(repo);
    var a := LeftSlashes(repo);
    var b := RightSlashes(left);
    assert Surrounded(repo, a, TrimRightSlashes(left), b);
  }

  /** The image of a build is just the one with this name. */
  lemma ImageRefNames(spec: CISpec, sha: string, image: string)
    ensures image == ImageRef(spec, sha) <==> NamesImage(spec, sha, image)
  {
    var host, path, tag := TrimSuffixSlash(spec.registry), TrimRightSlashes(TrimLeftSlashes(spec.repo)), Short(sha);
    TrimIs(spec.repo, path);
    assert Named(spec, sha, ImageRef(spec, sha), host, path, tag);
    if NamesImage(spec, sha, image) {
      var h, p, t :| PathOf(spec.repo, p) && Named(spec, sha, image, h, p, t);
      TrimIs(spec.repo, p);
      assert h == host by {
        assert (h + "/")[..|h|] == h;
      }
      assert t == tag;
    }
  }

  /** The image has the start of this commit for its tag. */
  predicate Tagged(image: string, revision: string) {
    |revision| >= 12 && |image| > 12 && image[|image| - 13..] == ":" + revision[..12]
  }

  lemma NamedIsTagged(spec: CISpec, sha: string)
    requires |sha| >= 12
    ensures Tagged(ImageRef(spec, sha), sha)
  {
    var image := ImageRef(spec, sha);
    ImageRefNames(spec, sha, image);
    var host, path, tag :| PathOf(spec.repo, path) && Named(spec, sha, image, host, path, tag);
    EndsInTag(host + "/" + path, tag, image, sha);
  }

  lemma EndsInTag(name: string, tag: string, image: string, sha: string)
    requires |sha| >= 12 && TagOf(sha, tag) && image == name + ":" + tag
    ensures Tagged(image, sha)
  {
    assert tag == sha[..12];
    assert image == name + (":" + tag);
    assert image[|name|..] == ":" + tag;
  }

  /** So the tags of two images tell the commits apart, as far as they go. */
  lemma TagsDiffer(a: string, r: string, b: string, q: string)
    requires Tagged(a, r) && Tagged(b, q) && a == b
    ensures r[..12] == q[..12]
  {
    assert r[..12] == a[|a| - 13..][1..] && q[..12] == b[|b| - 13..][1..];
  }

  // ------------------------------------------------------------- what CI builds

  predicate FilledRegistry(cfg: Config, given: string, got: string) {
    if given != "" then got == given
    else if cfg.defaultRegistry != "" then got == cfg.defaultRegistry
    else got == "docker.io"
  }

  predicate FilledRepo(cfg: Config, given: string, got: string) {
    if given != "" then got == given else got == cfg.service
  }

  /** What ensureCI makes of the CI spec before. An image of the Service
      replaces registry, repository and credentials, even by empty ones, which
      the defaults then fill. */
  predicate CIFields(cfg: Config, svc: ServiceSpec, target: Target, before: CISpec, after: CISpec) {
    && after.revision == target.sha
    && after.dockerfile == target.dockerfile
    && after.plugins == target.plugins
    && after.login == before.login
    && after.extraSteps == before.extraSteps
    && (match svc.build
        case None => after.contextDir == ""
        case Some(build) => after.contextDir == build.contextDir)
    && (match svc.image
        case None =>
          && FilledRegistry(cfg, before.registry, after.registry)
          && FilledRepo(cfg, before.repo, after.repo)
          && after.credentials == before.credentials
        case Some(image) =>
          && FilledRegistry(cfg, image.registry, after.registry)
          && FilledRepo(cfg, image.repo, after.repo)
          && after.credentials == image.credentials)
  }

  lemma PointCIFields(cfg: Config, svc: ServiceSpec, target: Target, before: CISpec, after: CISpec)
    ensures after == PointCI(cfg, svc, target, before) <==> CIFields(cfg, svc, target, before, after)
  {
    var made := PointCI(cfg, svc, target, before);
    assert CIFields(cfg, svc, target, before, made);
    if CIFields(cfg, svc, target, before, after) {
      assert after.registry == made.registry && after.repo == made.repo;
    }
  }

  /** A version that an update of the spec adds: the generation counts the
      specs, and the status is carried over. */
  predicate Updated(last: CIVersion, v: CIVersion) {
    && v.status == last.status
    && v.generation == last.generation + (if v.spec != last.spec then 1 else 0)
  }

  /** What ensureCI leaves of the CI versions, from the cached copy: it fails
      only for a copy that is not the current one and not already as it is
      wanted. */
  predicate CIPut(cfg: Config, cis: seq<CIVersion>, seen: Option<nat>, svc: ServiceSpec, target: Target,
                  r: Option<seq<CIVersion>>)
    requires Seen(cis, seen)
  {
    match seen
    case None =>
      if cis != [] then r.None?
      else
        && r.Some? && |r.value| == 1
        && r.value[0].generation == 1 && r.value[0].language == target.language
        && r.value[0].status == CIStatus(CIUnset, NoCIReason, "", "", 0, None, "", 0)
        && CIFields(cfg, svc, target, CISpec("", "", "", false, "", "", "", [], []), r.value[0].spec)
    case Some(k) =>
      if CIFields(cfg, svc, target, cis[k].spec, cis[k].spec) && cis[k].language == target.language then r == Some(cis)
      else if k + 1 < |cis| then r.None?
      else
        && r.Some? && |r.value| == |cis| + 1 && r.value[..|cis|] == cis
        && Last(r.value).language == target.language
        && CIFields(cfg, svc, target, cis[k].spec, Last(r.value).spec)
        && Updated(cis[k], Last(r.value))
  }

  lemma PutCIFields(cfg: Config, cis: seq<CIVersion>, seen: Option<nat>, svc: ServiceSpec, target: Target)
    requires Seen(cis, seen)
    ensures CIPut(cfg, cis, seen, svc, target, PutCI(cfg, cis, seen, svc, target))
  {
    var before := if seen.Some? then cis[seen.value].spec else EMPTY_CI_SPEC;
    PointCIFields(cfg, svc, target, before, before);
    PointCIFields(cfg, svc, target, before, PointCI(cfg, svc, target, before));
  }

  // ------------------------------------------------------------------ the CD

  predicate ReplicasOf(svc: ServiceSpec, replicas: int) {
    match svc.replicas
    case None => replicas == 1
    case Some(n) => replicas == n
  }

  predicate PortOf(port: int, got: int) {
    if port == 0 then got == 8080 else got == port
  }

  /** The fields of a CD that its Service owns. */
  predicate ServiceFields(svc: ServiceSpec, spec: CDSpec) {
    ReplicasOf(svc, spec.replicas) && spec.env == svc.env && PortOf(svc.port, spec.port)
  }

  /** What ensureCD makes of the CD spec before: the Secret of the registry,
      the one made from the deprecated login where only that is given, and
      resources where there are none. */
  predicate CDFields(cfg: Config, ci: CISpec, svc: ServiceSpec, before: CDSpec, after: CDSpec) {
    && ServiceFields(svc, after)
    && (if ci.credentials != "" then after.pullSecret == ci.credentials
        else if ci.login then after.pullSecret == cfg.ci + "-registry"
        else after.pullSecret == "")
    && (match before.resources
        case None => after.resources == Some("100m/500m/128Mi/256Mi")
        case Some(_) => after.resources == before.resources)
  }

  lemma PointCDFields(cfg: Config, ci: CISpec, svc: ServiceSpec, before: CDSpec, after: CDSpec)
    ensures after == PointCD(cfg, ci, svc, before) <==> CDFields(cfg, ci, svc, before, after)
  {
  }

  predicate UpdatedCD(last: CDVersion, v: CDVersion) {
    && v.status == last.status
    && v.generation == last.generation + (if v.spec != last.spec then 1 else 0)
  }

  /** What ensureCD leaves of the CD versions, likewise. */
  predicate CDPut(cfg: Config, cds: seq<CDVersion>, seen: Option<nat>, ci: CISpec, svc: ServiceSpec,
                  r: Option<seq<CDVersion>>)
    requires Seen(cds, seen)
  {
    match seen
    case None =>
      if cds != [] then r.None?
      else
        && r.Some? && |r.value| == 1 && r.value[0].generation == 1
        && r.value[0].status == CDStatus(CDUnset, "", "")
        && CDFields(cfg, ci, svc, CDSpec("", 0, [], 0, None), r.value[0].spec)
    case Some(k) =>
      if CDFields(cfg, ci, svc, cds[k].spec, cds[k].spec) then r == Some(cds)
      else if k + 1 < |cds| then r.None?
      else
        && r.Some? && |r.value| == |cds| + 1 && r.value[..|cds|] == cds
        && CDFields(cfg, ci, svc, cds[k].spec, Last(r.value).spec)
        && UpdatedCD(cds[k], Last(r.value))
  }

  lemma PutCDFields(cfg: Config, cds: seq<CDVersion>, seen: Option<nat>, ci: CISpec, svc: ServiceSpec)
    requires Seen(cds, seen)
    ensures CDPut(cfg, cds, seen, ci, svc, PutCD(cfg, cds, seen, ci, svc))
  {
    var before := if seen.Some? then cds[seen.value].spec else EMPTY_CD_SPEC;
    PointCDFields(cfg, ci, svc, before, before);
    PointCDFields(cfg, ci, svc, before, PointCD(cfg, ci, svc, before));
  }

  /** A field after a merge patch: the wanted value if it differs from the one
      in the copy, and otherwise whatever the field is by now. */
  predicate Merged<T(==)>(now: T, copy: T, wanted: T, after: T) {
    if wanted != copy then after == wanted else after == now
  }

  /** The CD spec after syncCD: what the Service owns is merged, and the pull
      Secret and the resources stay as they are. */
  ghost predicate SyncFields(svc: ServiceSpec, now: CDSpec, copy: CDSpec, after: CDSpec) {
    && after.pullSecret == now.pullSecret
    && after.resources == now.resources
    && Merged(now.env, copy.env, svc.env, after.env)
    && (exists n :: ReplicasOf(svc, n) && Merged(now.replicas, copy.replicas, n, after.replicas))
    && (exists p :: PortOf(svc.port, p) && Merged(now.port, copy.port, p, after.port))
  }

  lemma SyncCDLeaves(cds: seq<CDVersion>, k: nat, svc: ServiceSpec)
    requires k < |cds|
    ensures
      var r := SyncCD(cds, k, svc);
      && SyncFields(svc, Last(cds).spec, cds[k].spec, Last(r).spec)
      && if SyncFields(svc, Last(cds).spec, cds[k].spec, Last(cds).spec) then r == cds
         else |r| == |cds| + 1 && r[..|cds|] == cds && UpdatedCD(Last(cds), Last(r))
  {
    var now, copy := Last(cds).spec, cds[k].spec;
    var after := Last(SyncCD(cds, k, svc)).spec;
    var n, p := if svc.replicas.Some? then svc.replicas.value else 1, if svc.port == 0 then 8080 else svc.port;
    assert ReplicasOf(svc, n) && Merged(now.replicas, copy.replicas, n, after.replicas);
    assert PortOf(svc.port, p) && Merged(now.port, copy.port, p, after.port);
  }

  /** The CD version that a status patch leaves, from any copy. */
  lemma PatchCDLeaves(cds: seq<CDVersion>, copy: CDStatus, st: CDStatus)
    requires cds != []
    ensures
      var r, now := PatchCD(cds, copy, st), Last(cds);
      && r != []
      && Merged(now.status.phase, copy.phase, st.phase, Last(r).status.phase)
      && Merged(now.status.revision, copy.revision, st.revision, Last(r).status.revision)
      && Merged(now.status.image, copy.image, st.image, Last(r).status.image)
      && Last(r).spec == now.spec && Last(r).generation == now.generation
      && (if Last(r).status == now.status then r == cds else r == cds + [Last(r)])
  {
  }

  // ---------------------------------------------------------- the Deployment

  /** What a CD asks of its Deployment: a negative number of replicas is one,
      and port 0 is 8080. */
  predicate DeploymentFields(spec: CDSpec, image: string, d: DeploymentSpec) {
    && (if spec.replicas < 0 then d.replicas == 1 else d.replicas == spec.replicas)
    && d.template.image == image
    && d.template.env == spec.env
    && PortOf(spec.port, d.template.port)
    && d.template.pullSecret == spec.pullSecret
    && d.template.resources == spec.resources
  }

  lemma WantedDeploymentFields(spec: CDSpec, image: string, d: DeploymentSpec)
    ensures d == WantedDeployment(spec, image) <==> DeploymentFields(spec, image, d)
  {
  }

  /** What reconcileDeployment leaves, and the Deployment that it returns: an
      update counts the generation up, so the rollout that the status speaks of
      is the one before. */
  predicate DeploymentPut(deps: seq<Deployment>, seen: Option<nat>, spec: CDSpec, image: string,
                          r: Option<(seq<Deployment>, Deployment)>)
    requires Seen(deps, seen)
  {
    match seen
    case None =>
      if deps != [] then r.None?
      else
        && r.Some? && r.value.0 == [r.value.1]
        && r.value.1.generation == 1 && r.value.1.status == DeploymentStatus(0, 0, 0, [])
        && DeploymentFields(spec, image, r.value.1.spec)
    case Some(k) =>
      if DeploymentFields(spec, image, deps[k].spec) then r == Some((deps, deps[k]))
      else if k + 1 < |deps| then r.None?
      else
        && r.Some? && r.value.0 == deps + [r.value.1]
        && r.value.1.generation == deps[k].generation + 1 && r.value.1.status == deps[k].status
        && DeploymentFields(spec, image, r.value.1.spec)
  }

  lemma PutDeploymentFields(deps: seq<Deployment>, seen: Option<nat>, spec: CDSpec, image: string)
    requires Seen(deps, seen)
    ensures DeploymentPut(deps, seen, spec, image, PutDeployment(deps, seen, WantedDeployment(spec, image)))
  {
    if seen.Some? {
      WantedDeploymentFields(spec, image, deps[seen.value].spec);
    }
  }
}
