/** CI plugins: which ones a Service runs, in which order, and how that order
    is carried through the build Pod to the results. */
module Plugins {
  import opened Common
  import opened Objects

  datatype TargetRef = TargetRef(kind: string, name: string)

  /** A label selector of equality terms; malformed ones select nothing. */
  datatype Selector = Selector(malformed: bool, terms: map<string, string>)

  datatype Plugin = Plugin(
    name: string,
    namespace: string,
    deleting: bool,
    generation: nat,
    order: int,
    targetRefs: seq<TargetRef>,
    selector: Option<Selector>)

  datatype Service = Service(name: string, namespace: string, plugins: seq<string>, labels: map<string, string>)

  predicate Selects(sel: Selector, labels: map<string, string>) {
    && !sel.malformed && sel.terms != map[]
    && forall k | k in sel.terms :: k in labels && labels[k] == sel.terms[k]
  }

  predicate Targets(p: Plugin, svc: Service) {
    && p.namespace == svc.namespace
    && ((exists ref | ref in p.targetRefs :: (ref.kind == "" || ref.kind == "Service") && ref.name == svc.name)
        || (p.selector.Some? && Selects(p.selector.value, svc.labels)))
  }

  /** Whether svc runs the plugin, from either side. */
  predicate AttachedTo(p: Plugin, svc: Service) {
    (p.name in svc.plugins && svc.namespace == p.namespace) || Targets(p, svc)
  }

  // ---------------------------------------------------------------- the order

  /** The order of strings. */
  predicate Less(a: string, b: string) {
    if a == "" || b == "" then a == "" && b != ""
    else a[0] < b[0] || (a[0] == b[0] && Less(a[1..], b[1..]))
  }

  lemma {:induction false} LessTotal(a: string, b: string)
    ensures !(Less(a, b) && Less(b, a))
    ensures Less(a, b) || Less(b, a) || a == b
    ensures !Less(a, a)
  {
    if a != "" {
      LessTotal(a[1..], a[1..]);
      if b != "" {
        LessTotal(a[1..], b[1..]);
        if a[0] == b[0] && a[1..] == b[1..] {
          assert a == [a[0]] + a[1..] == b;
        }
      }
    }
  }

  lemma {:induction false} LessTransitive(a: string, b: string, c: string)
    requires Less(a, b) && Less(b, c)
    ensures Less(a, c)
  {
    if a != "" && a[0] == b[0] == c[0] {
      LessTransitive(a[1..], b[1..], c[1..]);
    }
  }

  /** a is a proper start of b, or has the smaller character where they first
      differ. */
  predicate FirstAt(a: string, b: string, n: nat) {
    && n <= |a| && n < |b| && a[..n] == b[..n]
    && (n == |a| || a[n] < b[n])
  }

  lemma {:induction false} LessIsFirst(a: string, b: string)
    ensures Less(a, b) <==> exists n: nat :: FirstAt(a, b, n)
  {
    if a == "" || b == "" {
      if a == "" && b != "" {
        assert FirstAt(a, b, 0);
      }
    } else {
      LessIsFirst(a[1..], b[1..]);
      if a[0] < b[0] {
        assert FirstAt(a, b, 0);
      }
      if a[0] == b[0] && Less(a[1..], b[1..]) {
        var n: nat :| FirstAt(a[1..], b[1..], n);
        assert a[..n + 1] == [a[0]] + a[1..][..n] && b[..n + 1] == [b[0]] + b[1..][..n];
        assert FirstAt(a, b, n + 1);
      }
      if n: nat :| FirstAt(a, b, n) {
        FirstOfTails(a, b, n);
      }
    }
  }

  lemma FirstOfTails(a: string, b: string, n: nat)
    requires a != "" && b != "" && FirstAt(a, b, n)
    ensures a[0] < b[0] || (a[0] == b[0] && exists k: nat :: FirstAt(a[1..], b[1..], k))
  {
    if n > 0 {
      assert a[0] == a[..n][0] == b[..n][0] == b[0];
      assert a[1..][..n - 1] == a[..n][1..] && b[1..][..n - 1] == b[..n][1..];
      assert FirstAt(a[1..], b[1..], n - 1);
    }
  }

  /** By spec.order, then by name. */
  predicate Precedes(p: Plugin, q: Plugin) {
    p.order < q.order || (p.order == q.order && Less(p.name, q.name))
  }

  lemma PrecedesTransitive(p: Plugin, q: Plugin, r: Plugin)
    requires Precedes(p, q) && Precedes(q, r)
    ensures Precedes(p, r)
  {
    if p.order == q.order == r.order {
      LessTransitive(p.name, q.name, r.name);
    }
  }

  lemma PrecedesTotal(p: Plugin, q: Plugin)
    ensures !(Precedes(p, q) && Precedes(q, p))
    ensures Precedes(p, q) || Precedes(q, p) || p.name == q.name
    ensures !Precedes(p, p)
  {
    LessTotal(p.name, q.name);
    LessTotal(p.name, p.name);
  }

  predicate StrictlySorted(ps: seq<Plugin>) {
    forall i, j | 0 <= i < j < |ps| :: Precedes(ps[i], ps[j])
  }

  predicate NoTwice(ps: seq<Plugin>) {
    forall i, j | 0 <= i < j < |ps| :: ps[i].name != ps[j].name
  }

  /** The stable sort, by insertion. */
  method SortPlugins(ps: seq<Plugin>) returns (r: seq<Plugin>)
    requires NoTwice(ps)
    ensures StrictlySorted(r)
    ensures multiset(r) == multiset(ps)
  {
    r := [];
    for i := 0 to |ps|
      invariant StrictlySorted(r)
      invariant multiset(r) == multiset(ps[..i])
    {
      assert ps[..i + 1] == ps[..i] + [ps[i]];
      forall p | p in r
        ensures p.name != ps[i].name
      {
        assert p in multiset(r);
      }
      r := Insert(r, ps[i]);
    }
    assert ps[..|ps|] == ps;
  }

  function InsertAt(ps: seq<Plugin>, i: nat, p: Plugin): seq<Plugin>
    requires i <= |ps|
  {
    ps[..i] + [p] + ps[i..]
  }

  lemma InsertedBag(ps: seq<Plugin>, i: nat, p: Plugin)
    requires i <= |ps|
    ensures multiset(InsertAt(ps, i, p)) == multiset(ps) + multiset{p}
  {
    assert ps == ps[..i] + ps[i..];
  }

  lemma InsertedSorted(ps: seq<Plugin>, i: nat, p: Plugin)
    requires StrictlySorted(ps) && i <= |ps|
    requires i > 0 ==> Precedes(ps[i - 1], p)
    requires forall j | i <= j < |ps| :: Precedes(p, ps[j])
    ensures StrictlySorted(InsertAt(ps, i, p))
  {
    forall j | 0 <= j < i
      ensures Precedes(ps[j], p)
    {
      if j < i - 1 {
        PrecedesTransitive(ps[j], ps[i - 1], p);
      }
    }
    var r := InsertAt(ps, i, p);
    forall x, y | 0 <= x < y < |r|
      ensures Precedes(r[x], r[y])
    {
      var u := if x < i then ps[x] else if x == i then p else ps[x - 1];
      var v := if y < i then ps[y] else if y == i then p else ps[y - 1];
      assert r[x] == u && r[y] == v;
    }
  }

  method Insert(ps: seq<Plugin>, p: Plugin) returns (r: seq<Plugin>)
    requires StrictlySorted(ps) && forall q | q in ps :: q.name != p.name
    ensures StrictlySorted(r)
    ensures multiset(r) == multiset(ps) + multiset{p}
  {
    var i := |ps|;
    while i > 0 && Precedes(p, ps[i - 1])
      invariant 0 <= i <= |ps|
      invariant forall j | i <= j < |ps| :: Precedes(p, ps[j])
    {
      i := i - 1;
    }
    if i > 0 {
      PrecedesTotal(ps[i - 1], p);
    }
    InsertedBag(ps, i, p);
    InsertedSorted(ps, i, p);
    r := InsertAt(ps, i, p);
  }

  // -------------------------------------------------------------- resolution

  /** The plugins a Service can run, by name. */
  function ByName(svc: Service, all: seq<Plugin>): map<string, Plugin> {
    if all == [] then map[]
    else
      var p, m := Last(all), ByName(svc, all[..|all| - 1]);
      if p.namespace == svc.namespace && !p.deleting then m[p.name := p] else m
  }

  function MissingFrom(refs: seq<string>, m: map<string, Plugin>): seq<string> {
    if refs == [] then []
    else MissingFrom(refs[..|refs| - 1], m) + if Last(refs) in m then [] else [Last(refs)]
  }

  /** What the result must be, whatever the order of the loops. */
  ghost predicate Resolved(svc: Service, m: map<string, Plugin>, attached: seq<Plugin>) {
    && StrictlySorted(attached)
    && forall p :: p in attached <==> p.name in m && m[p.name] == p && AttachedTo(p, svc)
  }

  lemma {:induction false} ByNameIs(svc: Service, all: seq<Plugin>)
    ensures forall n | n in ByName(svc, all) ::
      var p := ByName(svc, all)[n];
      p in all && p.name == n && p.namespace == svc.namespace && !p.deleting
    ensures forall p | p in all && p.namespace == svc.namespace && !p.deleting :: p.name in ByName(svc, all)
  {
    if all != [] {
      ByNameIs(svc, all[..|all| - 1]);
      assert all == all[..|all| - 1] + [Last(all)];
    }
  }

  method Index(svc: Service, all: seq<Plugin>) returns (byName: map<string, Plugin>)
    ensures byName == ByName(svc, all)
  {
    byName := map[];
    for i := 0 to |all|
      invariant byName == ByName(svc, all[..i])
    {
      assert all[..i + 1][..i] == all[..i];
      if all[i].namespace == svc.namespace && !all[i].deleting {
        byName := byName[all[i].name := all[i]];
      }
    }
    assert all[..|all|] == all;
  }

  /** The closure that appends a plugin once. */
  method Add(p: Plugin, seen: set<string>, attached: seq<Plugin>) returns (seen': set<string>, attached': seq<Plugin>)
    requires Collected(seen, attached)
    ensures Collected(seen', attached') && seen' == seen + {p.name}
    ensures attached' == if p.name in seen then attached else attached + [p]
  {
    seen', attached' := seen, attached;
    if p.name !in seen {
      seen' := seen + {p.name};
      attached' := attached + [p];
    }
  }

  predicate Collected(seen: set<string>, attached: seq<Plugin>) {
    && NoTwice(attached)
    && seen == set p | p in attached :: p.name
  }

  /** The plugins that the Service lists. */
  method AddListed(svc: Service, byName: map<string, Plugin>)
    returns (seen: set<string>, attached: seq<Plugin>, missing: seq<string>)
    requires forall n | n in byName :: byName[n].name == n
    ensures Collected(seen, attached)
    ensures forall p | p in attached :: p.name in byName && byName[p.name] == p
    ensures seen == set n | n in svc.plugins && n in byName
    ensures missing == MissingFrom(svc.plugins, byName)
  {
    seen, attached, missing := {}, [], [];
    for i := 0 to |svc.plugins|
      invariant Collected(seen, attached)
      invariant forall p | p in attached :: p.name in byName && byName[p.name] == p
      invariant seen == set n | n in svc.plugins[..i] && n in byName
      invariant missing == MissingFrom(svc.plugins[..i], byName)
    {
      var name := svc.plugins[i];
      assert svc.plugins[..i + 1][..i] == svc.plugins[..i];
      assert svc.plugins[..i + 1] == svc.plugins[..i] + [name];
      if name in byName {
        seen, attached := Add(byName[name], seen, attached);
      } else {
        missing := missing + [name];
      }
    }
    assert svc.plugins[..|svc.plugins|] == svc.plugins;
  }

  /** The plugins that target the Service, in any order of the map. */
  method AddTargeting(svc: Service, byName: map<string, Plugin>, seen0: set<string>, attached0: seq<Plugin>)
    returns (seen: set<string>, attached: seq<Plugin>)
    requires forall n | n in byName :: byName[n].name == n
    requires Collected(seen0, attached0)
    requires forall p | p in attached0 :: p.name in byName && byName[p.name] == p
    ensures Collected(seen, attached)
    ensures forall p | p in attached :: p.name in byName && byName[p.name] == p
    ensures forall n | n in byName :: n in seen <==> n in seen0 || Targets(byName[n], svc)
  {
    seen, attached := seen0, attached0;
    var rest := byName.Keys;
    while rest != {}
      invariant rest <= byName.Keys
      invariant Collected(seen, attached)
      invariant forall p | p in attached :: p.name in byName && byName[p.name] == p
      invariant forall n | n in byName :: n in seen <==> n in seen0 || (n !in rest && Targets(byName[n], svc))
    {
      var name :| name in rest;
      if Targets(byName[name], svc) {
        seen, attached := Add(byName[name], seen, attached);
      }
      rest := rest - {name};
    }
  }

  lemma CollectedAreAttached(svc: Service, m: map<string, Plugin>, seen: set<string>, attached: seq<Plugin>, p: Plugin)
    requires forall n | n in m :: m[n].name == n && m[n].namespace == svc.namespace
    requires Collected(seen, attached) && forall q | q in attached :: q.name in m && m[q.name] == q
    requires forall n | n in m :: n in seen <==> n in svc.plugins || Targets(m[n], svc)
    ensures p in attached <==> p.name in m && m[p.name] == p && AttachedTo(p, svc)
  {
    if p.name in m && m[p.name] == p && AttachedTo(p, svc) {
      assert p.name in seen;
      var q :| q in attached && q.name == p.name;
    }
    if p in attached {
      assert p.name in seen;
    }
  }

  /** Resolve. */
  method Resolve(svc: Service, all: seq<Plugin>) returns (attached: seq<Plugin>, missing: seq<string>)
    ensures Resolved(svc, ByName(svc, all), attached)
    ensures missing == MissingFrom(svc.plugins, ByName(svc, all))
  {
    ByNameIs(svc, all);
    var byName := Index(svc, all);
    var seen: set<string>;
    seen, attached, missing := AddListed(svc, byName);
    seen, attached := AddTargeting(svc, byName, seen, attached);
    ghost var collected := attached;
    attached := SortPlugins(attached);
    forall p
      ensures p in attached <==> p.name in byName && byName[p.name] == p && AttachedTo(p, svc)
    {
      assert p in attached <==> p in multiset(attached);
      assert p in collected <==> p in multiset(collected);
      CollectedAreAttached(svc, byName, seen, collected, p);
    }
  }

  lemma HasMember(a: seq<Plugin>)
    requires |a| > 0
    ensures exists p :: p in a
  {
    assert a[0] in a;
  }

  /** Two sorted lists with the same plugins are the same list. */
  lemma {:induction false} SortedIsUnique(a: seq<Plugin>, b: seq<Plugin>)
    requires StrictlySorted(a) && StrictlySorted(b)
    requires forall p :: p in a <==> p in b
    ensures a == b
  {
    if |a| == 0 {
      if |b| > 0 {
        HasMember(b);
      }
    } else if |b| == 0 {
      HasMember(a);
    } else {
      FirstIsLeast(a);
      FirstIsLeast(b);
      PrecedesTotal(a[0], b[0]);
      assert a[0] in b && b[0] in a;
      forall p
        ensures p in a[1..] <==> p in b[1..]
      {
        assert a == [a[0]] + a[1..] && b == [b[0]] + b[1..];
        PrecedesTotal(p, p);
      }
      SortedIsUnique(a[1..], b[1..]);
      assert a == [a[0]] + a[1..] && b == [b[0]] + b[1..];
    }
  }

  lemma FirstIsLeast(a: seq<Plugin>)
    requires StrictlySorted(a) && a != []
    ensures forall p | p in a :: p == a[0] || Precedes(a[0], p)
  {
  }

  /** So the result depends neither on the order in which the map is iterated
      nor on the order in which the plugins are listed. */
  lemma ResolveIsDetermined(svc: Service, all: seq<Plugin>, other: seq<Plugin>, a: seq<Plugin>, b: seq<Plugin>)
    requires multiset(all) == multiset(other) && DistinctNames(svc, all)
    requires Resolved(svc, ByName(svc, all), a) && Resolved(svc, ByName(svc, other), b)
    ensures a == b
  {
    forall p
      ensures p in all <==> p in other
    {
      assert p in multiset(all) <==> p in multiset(other);
    }
    forall p
      ensures p in a <==> p in b
    {
      HasPlugin(svc, all, p);
      HasPlugin(svc, other, p);
    }
    SortedIsUnique(a, b);
  }

  /** Names are unique in a namespace. */
  predicate DistinctNames(svc: Service, all: seq<Plugin>) {
    forall p, q | p in all && q in all && p.namespace == q.namespace == svc.namespace && p.name == q.name :: p == q
  }

  lemma HasPlugin(svc: Service, all: seq<Plugin>, p: Plugin)
    requires DistinctNames(svc, all)
    ensures
      var m := ByName(svc, all);
      p.name in m && m[p.name] == p <==> p in all && p.namespace == svc.namespace && !p.deleting
  {
    ByNameIs(svc, all);
  }

  /** A plugin is in the result exactly if it is of the namespace, not being
      deleted, and attached from either side: the Service lists its name, or
      it refers to the Service, or its selector has terms and the labels of the
      Service meet them all. */
  lemma ResolvedIffAttached(svc: Service, all: seq<Plugin>, attached: seq<Plugin>, p: Plugin)
    requires DistinctNames(svc, all) && Resolved(svc, ByName(svc, all), attached)
    ensures p in attached <==>
            && p in all && p.namespace == svc.namespace && !p.deleting
            && (|| p.name in svc.plugins
                || (exists ref | ref in p.targetRefs ::
                      (ref.kind == "" || ref.kind == "Service") && ref.name == svc.name)
                || (p.selector.Some? && !p.selector.value.malformed && p.selector.value.terms != map[] &&
                    forall k | k in p.selector.value.terms ::
                      k in svc.labels && svc.labels[k] == p.selector.value.terms[k]))
  {
    HasPlugin(svc, all, p);
  }

  /** The plugins run by their order, the lower first, and by their names
      where that is the same. */
  lemma ResolvedInOrder(svc: Service, m: map<string, Plugin>, attached: seq<Plugin>, i: nat, j: nat)
    requires Resolved(svc, m, attached) && i < j < |attached|
    ensures attached[i].order <= attached[j].order
    ensures attached[i].order == attached[j].order ==> exists n: nat :: FirstAt(attached[i].name, attached[j].name, n)
  {
    assert Precedes(attached[i], attached[j]);
    LessIsFirst(attached[i].name, attached[j].name);
  }

  lemma ResolvedNoTwice(svc: Service, m: map<string, Plugin>, attached: seq<Plugin>)
    requires Resolved(svc, m, attached)
    ensures NoTwice(attached)
  {
    forall i, j | 0 <= i < j < |attached|
      ensures attached[i].name != attached[j].name
    {
      PrecedesTotal(attached[i], attached[j]);
      assert attached[i] in attached && attached[j] in attached;
      PrecedesTotal(attached[i], attached[i]);
    }
  }

  // ------------------------------------------------------------ the build Pod

  method Refs(list: seq<Plugin>) returns (out: seq<PluginRef>)
    ensures |out| == |list| && forall i | 0 <= i < |list| :: out[i] == PluginRef(list[i].name, list[i].generation)
  {
    out := [];
    for i := 0 to |list|
      invariant |out| == i && forall j | 0 <= j < i :: out[j] == PluginRef(list[j].name, list[j].generation)
    {
      out := out + [PluginRef(list[i].name, list[i].generation)];
    }
  }

  const PREFIX := "plugin-"
  const MAX_NAME := 63
  const KEPT := 47

  /** hash is the first four bytes of the SHA-256 sum, in hexadecimal. */
  function ContainerName(hash: string -> string, plugin: string): (name: string) {
    if |PREFIX| + |plugin| <= MAX_NAME then PREFIX + plugin else PREFIX + plugin[..KEPT] + "-" + hash(plugin)
  }

  predicate Long(plugin: string) {
    |PREFIX| + |plugin| > MAX_NAME
  }

  /** A container is named after its plugin, and if that would be longer than
      63 characters after the start of the name and its hash, which fit. */
  lemma ContainerNameFits(hash: string -> string, plugin: string)
    requires |hash(plugin)| == 8
    ensures |ContainerName(hash, plugin)| <= 63
    ensures |plugin| <= 56 ==> ContainerName(hash, plugin) == "plugin-" + plugin
    ensures |plugin| > 56 ==> ContainerName(hash, plugin) == "plugin-" + plugin[..47] + "-" + hash(plugin)
  {
  }

  /** Two plugins share a container name exactly if both are long and share
      their start and hash, or a short one is named like a shortened one. */
  lemma ContainerNamesClash(hash: string -> string, a: string, b: string)
    requires |hash(a)| == 8 && |hash(b)| == 8
    ensures
      ContainerName(hash, a) == ContainerName(hash, b) <==>
      || a == b
      || (Long(a) && Long(b) && a[..KEPT] == b[..KEPT] && hash(a) == hash(b))
      || (Long(a) && !Long(b) && b == a[..KEPT] + "-" + hash(a))
      || (!Long(a) && Long(b) && a == b[..KEPT] + "-" + hash(b))
  {
    var x, y := ContainerName(hash, a), ContainerName(hash, b);
    var restA := if Long(a) then a[..KEPT] + "-" + hash(a) else a;
    var restB := if Long(b) then b[..KEPT] + "-" + hash(b) else b;
    assert x == PREFIX + restA && y == PREFIX + restB;
    assert x[7..] == restA && y[7..] == restB;
    if Long(a) && Long(b) {
      assert restA[..KEPT] == a[..KEPT] && restA[KEPT + 1..] == hash(a);
      assert restB[..KEPT] == b[..KEPT] && restB[KEPT + 1..] == hash(b);
    }
  }

  /** The names as a function, which is what the build Pod depends on. */
  function Namer(hash: string -> string): string -> string {
    plugin => ContainerName(hash, plugin)
  }

  datatype Container = Container(name: string, plugin: Option<string>)

  /** Steps; render fails for an invalid plugin. */
  method Steps(nameOf: string -> string, render: Plugin -> bool, list: seq<Plugin>)
    returns (out: Option<seq<Container>>)
    ensures out.Some? <==> forall p | p in list :: render(p)
    ensures out.Some? ==>
              |out.value| == |list| &&
              forall i | 0 <= i < |list| ::
                out.value[i] == Container(nameOf(list[i].name), Some(list[i].name))
  {
    var steps: seq<Container> := [];
    for i := 0 to |list|
      invariant |steps| == i && forall p | p in list[..i] :: render(p)
      invariant forall j | 0 <= j < i :: steps[j] == Container(nameOf(list[j].name), Some(list[j].name))
    {
      if !render(list[i]) {
        return None;
      }
      steps := steps + [Container(nameOf(list[i].name), Some(list[i].name))];
    }
    out := Some(steps);
  }

  /** pluginSteps: fetches each pinned plugin by its name and renders it. */
  method PluginSteps(nameOf: string -> string, render: Plugin -> bool, refs: seq<PluginRef>,
                     stored: map<string, Plugin>)
    returns (out: Option<seq<Container>>)
    requires forall n | n in stored :: stored[n].name == n
    ensures out.Some? <==> forall ref | ref in refs :: ref.name in stored && render(stored[ref.name])
    ensures out.Some? ==>
              |out.value| == |refs| &&
              forall i | 0 <= i < |refs| ::
                out.value[i] == Container(nameOf(refs[i].name), Some(refs[i].name))
  {
    var list: seq<Plugin> := [];
    for i := 0 to |refs|
      invariant |list| == i
      invariant forall j | 0 <= j < i :: refs[j].name in stored && list[j] == stored[refs[j].name]
    {
      if refs[i].name !in stored {
        return None;
      }
      list := list + [stored[refs[i].name]];
    }
    out := Steps(nameOf, render, list);
    if out.Some? {
      forall ref | ref in refs
        ensures ref.name in stored && render(stored[ref.name])
      {
        var i :| 0 <= i < |refs| && refs[i] == ref;
        assert list[i] in list;
      }
    } else {
      var p :| p in list && !render(p);
      var i :| 0 <= i < |list| && list[i] == p;
      assert refs[i] in refs;
    }
  }

  /** The init containers of the build Pod: the clone, the user's own steps,
      then the plugins. */
  method InitContainers(extra: seq<string>, steps: seq<Container>) returns (out: seq<Container>)
    ensures |out| == 1 + |extra| + |steps|
    ensures out[0] == Container("clone", None)
    ensures forall i | 0 <= i < |extra| :: out[1 + i] == Container(extra[i], None)
    ensures out[1 + |extra|..] == steps
  {
    out := [Container("clone", None)];
    for i := 0 to |extra|
      invariant |out| == 1 + i && out[0] == Container("clone", None)
      invariant forall j | 0 <= j < i :: out[1 + j] == Container(extra[j], None)
    {
      out := out + [Container(extra[i], None)];
    }
    out := out + steps;
  }

  datatype ContainerState = Waiting | Running | Terminated(exitCode: int)

  datatype ContainerStatus = ContainerStatus(name: string, state: ContainerState)

  datatype PluginPhase = PluginPending | PluginRunning | PluginSucceeded | PluginFailed

  datatype PluginResult = PluginResult(name: string, phase: PluginPhase)

  function PhaseOf(state: ContainerState): PluginPhase {
    match state
    case Waiting => PluginPending
    case Running => PluginRunning
    case Terminated(code) => if code == 0 then PluginSucceeded else PluginFailed
  }

  /** What the phase of a result says of the container. */
  predicate Says(phase: PluginPhase, state: ContainerState) {
    match phase
    case PluginPending => state == Waiting
    case PluginRunning => state == Running
    case PluginSucceeded => state == Terminated(0)
    case PluginFailed => state.Terminated? && state.exitCode != 0
  }

  function StatusMap(statuses: seq<ContainerStatus>): map<string, ContainerState> {
    if statuses == [] then map[]
    else StatusMap(statuses[..|statuses| - 1])[Last(statuses).name := Last(statuses).state]
  }

  /** The i-th result is the state of the container named after the i-th
      plugin, pending as long as there is none. */
  predicate Reports(nameOf: string -> string, refs: seq<PluginRef>, m: map<string, ContainerState>,
                    out: seq<PluginResult>) {
    && |out| == |refs|
    && forall i | 0 <= i < |refs| ::
         var k := nameOf(refs[i].name);
         out[i] == PluginResult(refs[i].name, if k in m then PhaseOf(m[k]) else PluginPending)
  }

  /** pluginResults. */
  method PluginResults(nameOf: string -> string, refs: seq<PluginRef>, statuses: seq<ContainerStatus>)
    returns (out: seq<PluginResult>)
    ensures Reports(nameOf, refs, StatusMap(statuses), out)
  {
    var byName: map<string, ContainerState> := map[];
    for i := 0 to |statuses|
      invariant byName == StatusMap(statuses[..i])
    {
      assert statuses[..i + 1][..i] == statuses[..i];
      byName := byName[statuses[i].name := statuses[i].state];
    }
    assert statuses[..|statuses|] == statuses;
    out := [];
    for i := 0 to |refs|
      invariant |out| == i
      invariant forall j | 0 <= j < i ::
        var k := nameOf(refs[j].name);
        out[j] == PluginResult(refs[j].name, if k in byName then PhaseOf(byName[k]) else PluginPending)
    {
      var k := nameOf(refs[i].name);
      var phase := PluginPending;
      if k in byName {
        phase := PhaseOf(byName[k]);
      }
      out := out + [PluginResult(refs[i].name, phase)];
    }
  }

  lemma {:induction false} StatusMapAt(statuses: seq<ContainerStatus>, i: nat)
    requires i < |statuses|
    requires forall j | i < j < |statuses| :: statuses[j].name != statuses[i].name
    ensures statuses[i].name in StatusMap(statuses) && StatusMap(statuses)[statuses[i].name] == statuses[i].state
  {
    var n := |statuses| - 1;
    if i < n {
      StatusMapAt(statuses[..n], i);
    }
  }

  predicate NamesDiffer(inits: seq<Container>) {
    forall i, j | 0 <= i < j < |inits| :: inits[i].name != inits[j].name
  }

  /** When the names differ, a plugin's result is that of its own container. */
  lemma OwnResult(nameOf: string -> string, refs: seq<PluginRef>, inits: seq<Container>, states: seq<ContainerState>,
                  out: seq<PluginResult>, i: nat, k: nat)
    requires |states| == |inits| && NamesDiffer(inits)
    requires Reports(nameOf, refs, StatusMap(Statuses(inits, states)), out)
    requires i < |refs| && k < |inits| && inits[k].name == nameOf(refs[i].name)
    ensures out[i] == PluginResult(refs[i].name, PhaseOf(states[k]))
  {
    StatusMapAt(Statuses(inits, states), k);
  }

  /** And so for all of them, once the Pod has the steps at its end. */
  lemma OwnResults(nameOf: string -> string, refs: seq<PluginRef>, inits: seq<Container>, states: seq<ContainerState>,
                   out: seq<PluginResult>, first: nat)
    requires |states| == |inits| == first + |refs| && NamesDiffer(inits)
    requires Reports(nameOf, refs, StatusMap(Statuses(inits, states)), out)
    requires forall i | 0 <= i < |refs| :: inits[first + i].name == nameOf(refs[i].name)
    ensures forall i | 0 <= i < |refs| :: out[i] == PluginResult(refs[i].name, PhaseOf(states[first + i]))
  {
    forall i: nat | i < |refs|
      ensures out[i] == PluginResult(refs[i].name, PhaseOf(states[first + i]))
    {
      OwnResult(nameOf, refs, inits, states, out, i, first + i);
    }
  }

  /** The init containers that the plugins pinned in a CI give. */
  method PinAndRender(nameOf: string -> string, render: Plugin -> bool, svc: Service, all: seq<Plugin>,
                      attached: seq<Plugin>)
    returns (refs: seq<PluginRef>, steps: Option<seq<Container>>)
    requires Resolved(svc, ByName(svc, all), attached)
    ensures |refs| == |attached|
    ensures forall i | 0 <= i < |attached| :: refs[i] == PluginRef(attached[i].name, attached[i].generation)
    ensures steps.Some? <==> forall p | p in attached :: render(p)
    ensures steps.Some? ==> |steps.value| == |attached|
    ensures steps.Some? ==>
              forall i | 0 <= i < |attached| ::
                steps.value[i] == Container(nameOf(attached[i].name), Some(attached[i].name))
  {
    ByNameIs(svc, all);
    refs := Refs(attached);
    var byName := Index(svc, all);
    steps := PluginSteps(nameOf, render, refs, byName);
    forall i | 0 <= i < |attached|
      ensures refs[i] in refs && refs[i].name in byName && byName[refs[i].name] == attached[i]
    {
      assert attached[i] in attached;
    }
    if steps.None? {
      var ref :| ref in refs && !(ref.name in byName && render(byName[ref.name]));
      var i :| 0 <= i < |refs| && refs[i] == ref;
      assert attached[i] in attached && !render(attached[i]);
    }
  }

  /** The build Pod with these steps, and what it reports in the end. */
  method RunBuild(nameOf: string -> string, refs: seq<PluginRef>, steps: seq<Container>,
                  extra: seq<string>, states: seq<ContainerState>)
    returns (inits: seq<Container>, results: seq<PluginResult>)
    requires |steps| == |refs|
    requires forall i | 0 <= i < |refs| :: steps[i] == Container(nameOf(refs[i].name), Some(refs[i].name))
    ensures |inits| == 1 + |extra| + |refs| && inits[1 + |extra|..] == steps
    ensures |results| == |refs|
    ensures |states| == |inits| && NamesDiffer(inits) ==>
              forall i | 0 <= i < |refs| ::
                results[i] == PluginResult(refs[i].name, PhaseOf(states[1 + |extra| + i]))
  {
    inits := InitContainers(extra, steps);
    results := PluginResults(nameOf, refs, Statuses(inits, states));
    forall i | 0 <= i < |refs|
      ensures inits[1 + |extra| + i] == steps[i]
    {
      assert inits[1 + |extra|..][i] == inits[1 + |extra| + i];
    }
    if |states| == |inits| && NamesDiffer(inits) {
      OwnResults(nameOf, refs, inits, states, results, 1 + |extra|);
    }
  }

  /** The init containers of a build Pod, and what it reports in the end. */
  datatype Build = Build(inits: seq<Container>, results: seq<PluginResult>)

  /** The whole way: a Service's plugins are pinned in the CI, rendered into
      the build Pod and reported. There is no such Pod exactly if the Service
      names a plugin that does not exist or one of its own does not render.
      When no two init containers share a name, the i-th result is that of the
      i-th plugin's own container, a success exactly if that ended with exit
      code 0, and the plugins keep the order that Resolve gave them. */
  method BuildAndReport(hash: string -> string, render: Plugin -> bool, svc: Service, all: seq<Plugin>,
                        extra: seq<string>, states: seq<ContainerState>)
    returns (attached: seq<Plugin>, built: Option<Build>)
    ensures Resolved(svc, ByName(svc, all), attached)
    ensures built.Some? <==>
            MissingFrom(svc.plugins, ByName(svc, all)) == [] && forall p | p in attached :: render(p)
    ensures built.Some? ==> |built.value.inits| == 1 + |extra| + |attached|
    ensures built.Some? ==>
              forall i | 0 <= i < |attached| ::
                built.value.inits[1 + |extra|..][i] ==
                Container(ContainerName(hash, attached[i].name), Some(attached[i].name))
    ensures built.Some? ==> |built.value.results| == |attached|
    ensures built.Some? && |states| == |built.value.inits| && NamesDiffer(built.value.inits) ==>
              forall i | 0 <= i < |attached| ::
                && built.value.results[i].name == attached[i].name
                && Says(built.value.results[i].phase, states[1 + |extra| + i])
  {
    var missing: seq<string>;
    attached, missing := Resolve(svc, all);
    if |missing| > 0 {
      return attached, None;
    }
    var nameOf := Namer(hash);
    var refs, steps := PinAndRender(nameOf, render, svc, all, attached);
    if steps.None? {
      return attached, None;
    }
    var inits, results := RunBuild(nameOf, refs, steps.value, extra, states);
    built := Some(Build(inits, results));
  }

  /** The kubelet reports one status for each init container. */
  function Statuses(inits: seq<Container>, states: seq<ContainerState>): seq<ContainerStatus> {
    if |states| != |inits| then []
    else seq(|inits|, i requires 0 <= i < |inits| => ContainerStatus(inits[i].name, states[i]))
  }
}
