/** Which Secrets a pod spec may reference: one pass that collects every name
    once, and a check of each name. */
module Secrets {
  import opened Common

  /** A reference as it stands in the spec; optional may be left out. */
  datatype SecretRef = SecretRef(name: string, optional: Option<bool>)

  datatype Container = Container(env: seq<Option<SecretRef>>, envFrom: seq<Option<SecretRef>>)

  datatype Volume = Volume(secret: Option<SecretRef>, projected: seq<Option<SecretRef>>)

  datatype Spec = Spec(
    initContainers: seq<Container>,
    containers: seq<Container>,
    volumes: seq<Volume>,
    pullSecrets: seq<string>)

  datatype Reference = Reference(name: string, optional: bool)

  function Ref(r: SecretRef): Reference {
    Reference(r.name, r.optional == Some(true))
  }

  function Given(rs: seq<Option<SecretRef>>): seq<Reference> {
    if rs == [] then []
    else Given(rs[..|rs| - 1]) + if Last(rs).Some? then [Ref(Last(rs).value)] else []
  }

  function InContainer(c: Container): seq<Reference> {
    Given(c.env) + Given(c.envFrom)
  }

  function InVolume(v: Volume): seq<Reference> {
    Given([v.secret]) + Given(v.projected)
  }

  function InContainers(cs: seq<Container>): seq<Reference> {
    if cs == [] then [] else InContainers(cs[..|cs| - 1]) + InContainer(Last(cs))
  }

  function InVolumes(vs: seq<Volume>): seq<Reference> {
    if vs == [] then [] else InVolumes(vs[..|vs| - 1]) + InVolume(Last(vs))
  }

  lemma OneMoreContainer(cs: seq<Container>, i: nat)
    requires i < |cs|
    ensures InContainers(cs[..i + 1]) == InContainers(cs[..i]) + InContainer(cs[i])
  {
    assert cs[..i + 1][..i] == cs[..i];
  }

  lemma OneMoreVolume(vs: seq<Volume>, i: nat)
    requires i < |vs|
    ensures InVolumes(vs[..i + 1]) == InVolumes(vs[..i]) + InVolume(vs[i])
  {
    assert vs[..i + 1][..i] == vs[..i];
  }

  function Pulls(names: seq<string>): seq<Reference> {
    seq(|names|, i requires 0 <= i < |names| => Reference(names[i], false))
  }

  /** Every reference of the spec, as often as it stands there. */
  function References(spec: Spec): seq<Reference> {
    InContainers(spec.initContainers + spec.containers) + InVolumes(spec.volumes) + Pulls(spec.pullSecrets)
  }

  /** What reading a Secret gives. */
  datatype Read = Missing | Unreadable | Found(labelled: bool)

  datatype Policy = Policy(allowUnlabeled: bool)

  /** The rule for one reference: an existing Secret must be allowed, a missing
      one must be optional. */
  predicate Acceptable(p: Policy, read: string -> Read, r: Reference) {
    match read(r.name)
    case Missing => r.optional
    case Unreadable => false
    case Found(labelled) => p.allowUnlabeled || labelled
  }

  // ----------------------------------------------- what a spec refers to, plainly

  /** The entry refers to this Secret; it is optional only where it says so. */
  predicate IsFor(entry: Option<SecretRef>, name: string, optional: bool) {
    entry.Some? && entry.value.name == name && optional == (entry.value.optional == Some(true))
  }

  predicate Among(entries: seq<Option<SecretRef>>, name: string, optional: bool) {
    exists i | 0 <= i < |entries| :: IsFor(entries[i], name, optional)
  }

  predicate AmongContainer(c: Container, name: string, optional: bool) {
    Among(c.env, name, optional) || Among(c.envFrom, name, optional)
  }

  predicate AmongContainers(cs: seq<Container>, name: string, optional: bool) {
    exists i | 0 <= i < |cs| :: AmongContainer(cs[i], name, optional)
  }

  predicate AmongVolume(v: Volume, name: string, optional: bool) {
    IsFor(v.secret, name, optional) || Among(v.projected, name, optional)
  }

  predicate AmongVolumes(vs: seq<Volume>, name: string, optional: bool) {
    exists i | 0 <= i < |vs| :: AmongVolume(vs[i], name, optional)
  }

  /** Some entry of the spec refers to this Secret: the environment of a
      container, a volume, or a pull Secret, which is never optional. */
  predicate Mentions(spec: Spec, name: string, optional: bool) {
    || AmongContainers(spec.initContainers, name, optional)
    || AmongContainers(spec.containers, name, optional)
    || AmongVolumes(spec.volumes, name, optional)
    || (name in spec.pullSecrets && !optional)
  }

  /** The Secret may be used: it is there with the label, or without it where
      that is allowed, or missing where it is optional. */
  predicate MayUse(p: Policy, read: string -> Read, name: string, optional: bool) {
    || (read(name) == Missing && optional)
    || read(name) == Found(true)
    || (read(name) == Found(false) && p.allowUnlabeled)
  }

  lemma MayUseIs(p: Policy, read: string -> Read, r: Reference)
    ensures Acceptable(p, read, r) <==> MayUse(p, read, r.name, r.optional)
  {
  }

  lemma {:induction false} GivenIs(rs: seq<Option<SecretRef>>, r: Reference)
    ensures r in Given(rs) <==> Among(rs, r.name, r.optional)
  {
    if rs != [] {
      var n := |rs| - 1;
      GivenIs(rs[..n], r);
      assert IsFor(rs[n], r.name, r.optional) <==> rs[n].Some? && Ref(rs[n].value) == r;
      if Among(rs[..n], r.name, r.optional) {
        var i :| 0 <= i < n && IsFor(rs[..n][i], r.name, r.optional);
        assert IsFor(rs[i], r.name, r.optional);
      }
      if i :| 0 <= i < |rs| && IsFor(rs[i], r.name, r.optional) {
        assert i < n ==> IsFor(rs[..n][i], r.name, r.optional);
      }
    }
  }

  lemma InContainerIs(c: Container, r: Reference)
    ensures r in InContainer(c) <==> AmongContainer(c, r.name, r.optional)
  {
    GivenIs(c.env, r);
    GivenIs(c.envFrom, r);
  }

  lemma LastContainer(cs: seq<Container>, name: string, optional: bool)
    requires cs != []
    ensures AmongContainers(cs, name, optional) <==>
            AmongContainers(cs[..|cs| - 1], name, optional) || AmongContainer(Last(cs), name, optional)
  {
    var before := cs[..|cs| - 1];
    if i :| 0 <= i < |cs| && AmongContainer(cs[i], name, optional) {
      assert i < |before| ==> before[i] == cs[i];
    }
  }

  lemma {:induction false} InContainersIs(cs: seq<Container>, r: Reference)
    ensures r in InContainers(cs) <==> AmongContainers(cs, r.name, r.optional)
  {
    if cs != [] {
      InContainersIs(cs[..|cs| - 1], r);
      InContainerIs(Last(cs), r);
      LastContainer(cs, r.name, r.optional);
      assert r in InContainers(cs) <==> r in InContainers(cs[..|cs| - 1]) || r in InContainer(Last(cs));
    }
  }

  lemma InVolumeIs(v: Volume, r: Reference)
    ensures r in InVolume(v) <==> AmongVolume(v, r.name, r.optional)
  {
    GivenIs([v.secret], r);
    GivenIs(v.projected, r);
    assert [v.secret][0] == v.secret;
  }

  lemma LastVolume(vs: seq<Volume>, name: string, optional: bool)
    requires vs != []
    ensures AmongVolumes(vs, name, optional) <==>
            AmongVolumes(vs[..|vs| - 1], name, optional) || AmongVolume(Last(vs), name, optional)
  {
    var before := vs[..|vs| - 1];
    if i :| 0 <= i < |vs| && AmongVolume(vs[i], name, optional) {
      assert i < |before| ==> before[i] == vs[i];
    }
  }

  lemma {:induction false} InVolumesIs(vs: seq<Volume>, r: Reference)
    ensures r in InVolumes(vs) <==> AmongVolumes(vs, r.name, r.optional)
  {
    if vs != [] {
      InVolumesIs(vs[..|vs| - 1], r);
      InVolumeIs(Last(vs), r);
      LastVolume(vs, r.name, r.optional);
      assert r in InVolumes(vs) <==> r in InVolumes(vs[..|vs| - 1]) || r in InVolume(Last(vs));
    }
  }

  lemma ReferencesAre(spec: Spec, r: Reference)
    ensures r in References(spec) <==> Mentions(spec, r.name, r.optional)
  {
    var cs := spec.initContainers + spec.containers;
    InContainersIs(cs, r);
    InVolumesIs(spec.volumes, r);
    BothContainers(spec.initContainers, spec.containers, r.name, r.optional);
    PullsAre(spec.pullSecrets, r);
  }

  lemma PullsAre(names: seq<string>, r: Reference)
    ensures r in Pulls(names) <==> r.name in names && !r.optional
  {
    if r.name in names && !r.optional {
      var i :| 0 <= i < |names| && names[i] == r.name;
      assert Pulls(names)[i] == r;
    }
  }

  lemma BothContainers(a: seq<Container>, b: seq<Container>, name: string, optional: bool)
    ensures AmongContainers(a + b, name, optional) <==>
            AmongContainers(a, name, optional) || AmongContainers(b, name, optional)
  {
    if AmongContainers(b, name, optional) {
      var i :| 0 <= i < |b| && AmongContainer(b[i], name, optional);
      assert (a + b)[|a| + i] == b[i];
    }
    if AmongContainers(a, name, optional) {
      var i :| 0 <= i < |a| && AmongContainer(a[i], name, optional);
      assert (a + b)[i] == a[i];
    }
  }

  // --------------------------------------------------------- the collecting pass

  /** The names in the order in which they are first referenced. */
  function FirstNames(rs: seq<Reference>): seq<string> {
    if rs == [] then []
    else
      var names := FirstNames(rs[..|rs| - 1]);
      if Last(rs).name in names then names else names + [Last(rs).name]
  }

  function Optional(rs: seq<Reference>): map<string, bool> {
    if rs == [] then map[]
    else
      var m, r := Optional(rs[..|rs| - 1]), Last(rs);
      m[r.name := (if r.name in m then m[r.name] else true) && r.optional]
  }

  /** A name counts as optional exactly if all its references are. */
  lemma {:induction false} OptionalMeansAll(rs: seq<Reference>, name: string)
    ensures name in Optional(rs) <==> exists r :: r in rs && r.name == name
    ensures name in Optional(rs) <==> name in FirstNames(rs)
    ensures name in Optional(rs) ==> (Optional(rs)[name] <==> forall r | r in rs && r.name == name :: r.optional)
  {
    if rs != [] {
      var before, last := rs[..|rs| - 1], Last(rs);
      OptionalMeansAll(before, name);
      OptionalMeansAll(before, last.name);
      assert rs == before + [last];
      assert last in rs;
      assert forall r | r in before :: r in rs;
    }
  }

  lemma Associative(a: seq<Reference>, b: seq<Reference>, c: seq<Reference>)
    ensures (a + b) + c == a + (b + c)
  {
  }

  /** The closure `add` and the two variables it captures. */
  class Collector {
    var names: seq<string>
    var optional: map<string, bool>
    ghost var refs: seq<Reference>

    constructor ()
      ensures Valid() && refs == []
    {
      names, optional, refs := [], map[], [];
    }

    ghost predicate Valid()
      reads this
    {
      names == FirstNames(refs) && optional == Optional(refs)
    }

    method Add(name: string, opt: Option<bool>)
      requires Valid()
      modifies this
      ensures Valid() && refs == old(refs) + [Reference(name, opt == Some(true))]
    {
      OptionalMeansAll(refs, name);
      refs := refs + [Reference(name, opt == Some(true))];
      assert refs[..|refs| - 1] == old(refs);
      if name !in optional {
        names := names + [name];
        optional := optional[name := true];
      }
      optional := optional[name := optional[name] && opt == Some(true)];
    }

    method AddAll(rs: seq<Option<SecretRef>>)
      requires Valid()
      modifies this
      ensures Valid() && refs == old(refs) + Given(rs)
    {
      for i := 0 to |rs|
        invariant Valid() && refs == old(refs) + Given(rs[..i])
      {
        assert rs[..i + 1][..i] == rs[..i];
        if rs[i].Some? {
          Add(rs[i].value.name, rs[i].value.optional);
        }
      }
      assert rs[..|rs|] == rs;
    }

    method AddContainer(c: Container)
      requires Valid()
      modifies this
      ensures Valid() && refs == old(refs) + InContainer(c)
    {
      AddAll(c.env);
      AddAll(c.envFrom);
    }

    method AddVolume(v: Volume)
      requires Valid()
      modifies this
      ensures Valid() && refs == old(refs) + InVolume(v)
    {
      AddAll([v.secret]);
      AddAll(v.projected);
    }

    method AddContainers(cs: seq<Container>)
      requires Valid()
      modifies this
      ensures Valid() && refs == old(refs) + InContainers(cs)
    {
      ghost var start := refs;
      for i := 0 to |cs|
        invariant Valid() && refs == start + InContainers(cs[..i])
      {
        OneMoreContainer(cs, i);
        Associative(start, InContainers(cs[..i]), InContainer(cs[i]));
        AddContainer(cs[i]);
      }
      assert cs[..|cs|] == cs;
    }

    method AddVolumes(vs: seq<Volume>)
      requires Valid()
      modifies this
      ensures Valid() && refs == old(refs) + InVolumes(vs)
    {
      ghost var start := refs;
      for i := 0 to |vs|
        invariant Valid() && refs == start + InVolumes(vs[..i])
      {
        OneMoreVolume(vs, i);
        Associative(start, InVolumes(vs[..i]), InVolume(vs[i]));
        AddVolume(vs[i]);
      }
      assert vs[..|vs|] == vs;
    }

    method AddPulls(pulls: seq<string>)
      requires Valid()
      modifies this
      ensures Valid() && refs == old(refs) + Pulls(pulls)
    {
      for i := 0 to |pulls|
        invariant Valid() && refs == old(refs) + Pulls(pulls)[..i]
      {
        Add(pulls[i], None);
      }
    }
  }

  datatype Verdict = Allowed | Denied(name: string)

  /** The loop over the names: stops at the first that may not be used. */
  method CheckNames(p: Policy, read: string -> Read, names: seq<string>, optional: map<string, bool>)
    returns (v: Verdict)
    requires forall n | n in names :: n in optional
    ensures v.Allowed? <==> forall n | n in names :: Acceptable(p, read, Reference(n, optional[n]))
    ensures v.Denied? ==>
              exists i | 0 <= i < |names| ::
                && names[i] == v.name && !Acceptable(p, read, Reference(names[i], optional[names[i]]))
                && forall j | 0 <= j < i :: Acceptable(p, read, Reference(names[j], optional[names[j]]))
  {
    for i := 0 to |names|
      invariant forall j | 0 <= j < i :: Acceptable(p, read, Reference(names[j], optional[names[j]]))
    {
      var name := names[i];
      var s := read(name);
      if s.Missing? && optional[name] {
        continue;
      }
      assert name in names;
      if !s.Found? {
        return Denied(name);
      }
      if !(p.allowUnlabeled || s.labelled) {
        return Denied(name);
      }
    }
    v := Allowed;
  }

  /** The three loops over the spec. */
  method Collect(spec: Spec) returns (names: seq<string>, optional: map<string, bool>)
    ensures names == FirstNames(References(spec)) && optional == Optional(References(spec))
  {
    var c := new Collector();
    c.AddContainers(spec.initContainers + spec.containers);
    c.AddVolumes(spec.volumes);
    c.AddPulls(spec.pullSecrets);
    assert [] + InContainers(spec.initContainers + spec.containers) ==
           InContainers(spec.initContainers + spec.containers);
    assert c.refs == References(spec);
    names, optional := c.names, c.optional;
  }

  /** checkPodSpec refines the rule for single references: it accepts exactly
      the specs all of whose entries refer to Secrets that may be used, whatever
      kinds of reference a name has and in whatever order; a refusal names an
      offender. */
  method CheckPodSpec(p: Policy, read: string -> Read, spec: Spec) returns (v: Verdict)
    ensures v.Allowed? <==> forall name, optional | Mentions(spec, name, optional) :: MayUse(p, read, name, optional)
    ensures v.Denied? ==> exists optional :: Mentions(spec, v.name, optional) && !MayUse(p, read, v.name, optional)
  {
    var names, optional := Collect(spec);
    NamesAreReferences(p, read, References(spec));
    v := CheckNames(p, read, names, optional);
    MentionedOrReferred(p, read, spec);
    if v.Denied? {
      ghost var r :| r in References(spec) && r.name == v.name && !Acceptable(p, read, r);
      ReferencesAre(spec, r);
      assert Mentions(spec, v.name, r.optional);
    }
  }

  lemma MentionedOrReferred(p: Policy, read: string -> Read, spec: Spec)
    ensures (forall r | r in References(spec) :: Acceptable(p, read, r)) <==>
            forall name, optional | Mentions(spec, name, optional) :: MayUse(p, read, name, optional)
  {
    forall name, optional
      ensures Reference(name, optional) in References(spec) <==> Mentions(spec, name, optional)
    {
      ReferencesAre(spec, Reference(name, optional));
    }
    if forall name, optional | Mentions(spec, name, optional) :: MayUse(p, read, name, optional) {
      forall r | r in References(spec)
        ensures Acceptable(p, read, r)
      {
        assert r == Reference(r.name, r.optional) && Mentions(spec, r.name, r.optional);
      }
    }
    if forall r | r in References(spec) :: Acceptable(p, read, r) {
      forall name, optional | Mentions(spec, name, optional)
        ensures MayUse(p, read, name, optional)
      {
        MayUseIs(p, read, Reference(name, optional));
      }
    }
  }

  /** Checking each name once, with its combined flag, checks every reference. */
  lemma NamesAreReferences(p: Policy, read: string -> Read, rs: seq<Reference>)
    ensures forall n | n in FirstNames(rs) :: n in Optional(rs)
    ensures (forall n | n in FirstNames(rs) :: Acceptable(p, read, Reference(n, Optional(rs)[n]))) <==>
            forall r | r in rs :: Acceptable(p, read, r)
    ensures forall n | n in FirstNames(rs) && !Acceptable(p, read, Reference(n, Optional(rs)[n])) ::
      exists r :: r in rs && r.name == n && !Acceptable(p, read, r)
  {
    forall n
      ensures n in FirstNames(rs) <==> n in Optional(rs)
    {
      OptionalMeansAll(rs, n);
    }
    forall r | r in rs
      ensures r.name in Optional(rs)
      ensures Acceptable(p, read, Reference(r.name, Optional(rs)[r.name])) ==> Acceptable(p, read, r)
    {
      OptionalMeansAll(rs, r.name);
    }
    forall n | n in FirstNames(rs) && !Acceptable(p, read, Reference(n, Optional(rs)[n]))
      ensures exists r :: r in rs && r.name == n && !Acceptable(p, read, r)
    {
      OptionalMeansAll(rs, n);
      if read(n).Missing? {
        var r :| r in rs && r.name == n && !r.optional;
      } else {
        var r :| r in rs && r.name == n;
      }
    }
  }
}
