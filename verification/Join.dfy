/** The pipelines view: Services with their CIs and those with their CDs,
    joined through two hash tables. */
module Join {
  import opened Common
  import opened Text

  datatype Svc = Svc(namespace: Option<string>, name: string)

  datatype Ci = Ci(namespace: Option<string>, name: string, service: string)

  datatype Cd = Cd(namespace: Option<string>, name: string, ci: string)

  datatype Pipeline = Pipeline(service: Svc, ci: Option<Ci>, cd: Option<Cd>)

  function Space(namespace: Option<string>): string {
    if namespace.Some? then namespace.value else ""
  }

  function Key(namespace: Option<string>, name: string): string {
    Space(namespace) + "/" + name
  }

  predicate Proper(namespace: Option<string>) {
    '/' !in Space(namespace)
  }

  lemma KeyInjective(a: Option<string>, x: string, b: Option<string>, y: string)
    requires Proper(a) && Proper(b)
    ensures Key(a, x) == Key(b, y) <==> Space(a) == Space(b) && x == y
  {
    if Key(a, x) == Key(b, y) {
      SplitsOnce(Space(a), x, '/', Space(b), y);
    }
  }

  // --------------------------------------------------------------- the tables

  function Get<T>(m: map<string, seq<T>>, k: string): seq<T> {
    if k in m then m[k] else []
  }

  function Select<T>(items: seq<T>, which: T -> bool): seq<T> {
    if items == [] then []
    else Select(items[..|items| - 1], which) + if which(Last(items)) then [Last(items)] else []
  }

  function WithKey<T>(k: T -> string, key: string): T -> bool {
    item => k(item) == key
  }

  /** group: each entry holds the items with its key, in their order. */
  method Group<T>(items: seq<T>, k: T -> string) returns (m: map<string, seq<T>>)
    ensures forall key :: Get(m, key) == Select(items, WithKey(k, key))
  {
    m := map[];
    for i := 0 to |items|
      invariant forall key :: Get(m, key) == Select(items[..i], WithKey(k, key))
    {
      assert items[..i + 1][..i] == items[..i];
      ghost var before := m;
      var item := items[i];
      m := m[k(item) := Get(m, k(item)) + [item]];
      forall key
        ensures Get(m, key) == Select(items[..i + 1], WithKey(k, key))
      {
        assert Get(before, key) == Select(items[..i], WithKey(k, key));
      }
    }
    assert items[..|items|] == items;
  }

  lemma {:induction false} SelectSame<T>(items: seq<T>, p: T -> bool, q: T -> bool)
    requires forall x | x in items :: p(x) == q(x)
    ensures Select(items, p) == Select(items, q)
  {
    if items != [] {
      var n := |items| - 1;
      assert forall x | x in items[..n] :: x in items;
      SelectSame(items[..n], p, q);
      assert Last(items) in items;
    }
  }

  lemma {:induction false} SelectHas<T>(items: seq<T>, p: T -> bool, x: T)
    ensures x in Select(items, p) <==> x in items && p(x)
  {
    if items != [] {
      var n := |items| - 1;
      SelectHas(items[..n], p, x);
      assert items == items[..n] + [Last(items)];
    }
  }

  // ----------------------------------------------------------------- the join

  function Chains(s: Svc, c: Ci, ds: seq<Cd>): seq<Pipeline> {
    if ds == [] then [Pipeline(s, Some(c), None)]
    else seq(|ds|, i requires 0 <= i < |ds| => Pipeline(s, Some(c), Some(ds[i])))
  }

  function ServiceRows(s: Svc, mine: seq<Ci>, cds: Ci -> seq<Cd>): seq<Pipeline> {
    if mine == [] then [] else Chains(s, mine[0], cds(mine[0])) + ServiceRows(s, mine[1..], cds)
  }

  function Rows(services: seq<Svc>, cis: Svc -> seq<Ci>, cds: Ci -> seq<Cd>): seq<Pipeline> {
    if services == [] then []
    else
      var s := services[0];
      (if cis(s) == [] then [Pipeline(s, None, None)] else ServiceRows(s, cis(s), cds)) + Rows(services[1..], cis, cds)
  }

  /** A CI is of a Service, and a CD of a CI, by namespace and name. */
  predicate CiOf(c: Ci, s: Svc) {
    Space(c.namespace) == Space(s.namespace) && c.service == s.name
  }

  predicate CdOf(d: Cd, c: Ci) {
    Space(d.namespace) == Space(c.namespace) && d.ci == c.name
  }

  function CisOf(cis: seq<Ci>): Svc -> seq<Ci> {
    s => Select(cis, c => CiOf(c, s))
  }

  function CdsOf(cds: seq<Cd>): Ci -> seq<Cd> {
    c => Select(cds, d => CdOf(d, c))
  }

  /** The left outer join by nested loops. */
  function NestedJoin(services: seq<Svc>, cis: seq<Ci>, cds: seq<Cd>): seq<Pipeline> {
    Rows(services, CisOf(cis), CdsOf(cds))
  }

  lemma {:induction false} ServiceRowsSame(s: Svc, mine: seq<Ci>, f: Ci -> seq<Cd>, g: Ci -> seq<Cd>)
    requires forall c | c in mine :: f(c) == g(c)
    ensures ServiceRows(s, mine, f) == ServiceRows(s, mine, g)
  {
    if mine != [] {
      ServiceRowsSame(s, mine[1..], f, g);
    }
  }

  lemma {:induction false} RowsSame(services: seq<Svc>, cis: Svc -> seq<Ci>, cis': Svc -> seq<Ci>,
                                    f: Ci -> seq<Cd>, g: Ci -> seq<Cd>)
    requires forall s | s in services :: cis(s) == cis'(s)
    requires forall s, c | s in services && c in cis(s) :: f(c) == g(c)
    ensures Rows(services, cis, f) == Rows(services, cis', g)
  {
    if services != [] {
      assert services[0] in services;
      ServiceRowsSame(services[0], cis(services[0]), f, g);
      assert forall s | s in services[1..] :: s in services;
      RowsSame(services[1..], cis, cis', f, g);
    }
  }

  function CiKey(): Ci -> string {
    (c: Ci) => Key(c.namespace, c.service)
  }

  function CdKey(): Cd -> string {
    (d: Cd) => Key(d.namespace, d.ci)
  }

  function CisIn(m: map<string, seq<Ci>>): Svc -> seq<Ci> {
    (s: Svc) => Get(m, Key(s.namespace, s.name))
  }

  function CdsIn(m: map<string, seq<Cd>>): Ci -> seq<Cd> {
    (c: Ci) => Get(m, Key(c.namespace, c.name))
  }

  predicate ProperSpaces(services: seq<Svc>, cis: seq<Ci>, cds: seq<Cd>) {
    && (forall s | s in services :: Proper(s.namespace))
    && (forall c | c in cis :: Proper(c.namespace))
    && forall d | d in cds :: Proper(d.namespace)
  }

  lemma CisFound(services: seq<Svc>, cis: seq<Ci>, cds: seq<Cd>, m: map<string, seq<Ci>>, s: Svc)
    requires ProperSpaces(services, cis, cds) && s in services
    requires forall key :: Get(m, key) == Select(cis, WithKey(CiKey(), key))
    ensures CisIn(m)(s) == CisOf(cis)(s)
  {
    var key := Key(s.namespace, s.name);
    forall c | c in cis
      ensures WithKey(CiKey(), key)(c) == CiOf(c, s)
    {
      KeyInjective(c.namespace, c.service, s.namespace, s.name);
    }
    SelectSame(cis, WithKey(CiKey(), key), c => CiOf(c, s));
  }

  lemma CdsFound(services: seq<Svc>, cis: seq<Ci>, cds: seq<Cd>, m: map<string, seq<Cd>>, c: Ci)
    requires ProperSpaces(services, cis, cds) && c in cis
    requires forall key :: Get(m, key) == Select(cds, WithKey(CdKey(), key))
    ensures CdsIn(m)(c) == CdsOf(cds)(c)
  {
    var key := Key(c.namespace, c.name);
    forall d | d in cds
      ensures WithKey(CdKey(), key)(d) == CdOf(d, c)
    {
      KeyInjective(d.namespace, d.ci, c.namespace, c.name);
    }
    SelectSame(cds, WithKey(CdKey(), key), d => CdOf(d, c));
  }

  /** buildPipelines joins as the nested loops do: the same pipelines, as often
      and in the same order. */
  method BuildPipelines(services: seq<Svc>, cis: seq<Ci>, cds: seq<Cd>) returns (out: seq<Pipeline>)
    requires ProperSpaces(services, cis, cds)
    ensures out == NestedJoin(services, cis, cds)
  {
    var cisByService := Group(cis, CiKey());
    var cdsByCI := Group(cds, CdKey());
    out := Rows(services, CisIn(cisByService), CdsIn(cdsByCI));
    forall s | s in services
      ensures CisIn(cisByService)(s) == CisOf(cis)(s)
      ensures forall c | c in CisIn(cisByService)(s) :: CdsIn(cdsByCI)(c) == CdsOf(cds)(c)
    {
      CisFound(services, cis, cds, cisByService, s);
      forall c | c in CisIn(cisByService)(s)
        ensures CdsIn(cdsByCI)(c) == CdsOf(cds)(c)
      {
        SelectHas(cis, x => CiOf(x, s), c);
        CdsFound(services, cis, cds, cdsByCI, c);
      }
    }
    RowsSame(services, CisIn(cisByService), CisOf(cis), CdsIn(cdsByCI), CdsOf(cds));
  }

  /** The same namespace; a missing one is the empty one. */
  predicate SameSpace(a: Option<string>, b: Option<string>) {
    a == b || (a.None? && b == Some("")) || (a == Some("") && b.None?)
  }

  predicate Builds(c: Ci, s: Svc) {
    SameSpace(c.namespace, s.namespace) && c.service == s.name
  }

  predicate Deploys(d: Cd, c: Ci) {
    SameSpace(d.namespace, c.namespace) && d.ci == c.name
  }

  lemma SpacesAgree(a: Option<string>, b: Option<string>)
    ensures Space(a) == Space(b) <==> SameSpace(a, b)
  {
  }

  lemma BuildsAre(cis: seq<Ci>, s: Svc)
    ensures forall c | c in cis :: CiOf(c, s) <==> Builds(c, s)
  {
  }

  lemma DeploysAre(cds: seq<Cd>, c: Ci)
    ensures forall d | d in cds :: CdOf(d, c) <==> Deploys(d, c)
  {
  }

  /** A row of the join: a Service without CI, a CI without CD, or a chain. */
  predicate Row(cis: seq<Ci>, cds: seq<Cd>, p: Pipeline) {
    match (p.ci, p.cd)
    case (None, None) => forall c | c in cis :: !Builds(c, p.service)
    case (None, Some(_)) => false
    case (Some(c), None) => c in cis && Builds(c, p.service) && forall d | d in cds :: !Deploys(d, c)
    case (Some(c), Some(d)) => c in cis && Builds(c, p.service) && d in cds && Deploys(d, c)
  }

  lemma {:induction false} ServiceRowsHave(s: Svc, mine: seq<Ci>, cds: Ci -> seq<Cd>, p: Pipeline)
    ensures p in ServiceRows(s, mine, cds) <==>
            && p.service == s && p.ci.Some? && p.ci.value in mine
            && if p.cd.Some? then p.cd.value in cds(p.ci.value) else cds(p.ci.value) == []
  {
    if mine != [] {
      ServiceRowsHave(s, mine[1..], cds, p);
      ChainsHave(s, mine[0], cds(mine[0]), p);
      assert mine == [mine[0]] + mine[1..];
    }
  }

  lemma ChainsHave(s: Svc, c: Ci, ds: seq<Cd>, p: Pipeline)
    ensures p in Chains(s, c, ds) <==>
            p.service == s && p.ci == Some(c) && if p.cd.Some? then p.cd.value in ds else ds == []
  {
    if p.service == s && p.ci == Some(c) && p.cd.Some? && p.cd.value in ds {
      var i :| 0 <= i < |ds| && ds[i] == p.cd.value;
      assert Chains(s, c, ds)[i] == p;
    }
  }

  lemma {:induction false} RowsHave(services: seq<Svc>, cis: Svc -> seq<Ci>, cds: Ci -> seq<Cd>, p: Pipeline)
    ensures p in Rows(services, cis, cds) <==>
            && p.service in services
            && if p.ci.None? then p.cd.None? && cis(p.service) == []
               else
                 && p.ci.value in cis(p.service)
                 && if p.cd.Some? then p.cd.value in cds(p.ci.value) else cds(p.ci.value) == []
  {
    if services != [] {
      RowsHave(services[1..], cis, cds, p);
      ServiceRowsHave(services[0], cis(services[0]), cds, p);
      assert services == [services[0]] + services[1..];
    }
  }

  lemma NoneSelected<T>(items: seq<T>, p: T -> bool)
    ensures Select(items, p) == [] <==> forall x | x in items :: !p(x)
  {
    if Select(items, p) != [] {
      SelectHas(items, p, Select(items, p)[0]);
    }
    forall x | x in items && p(x)
      ensures x in Select(items, p)
    {
      SelectHas(items, p, x);
    }
  }

  /** Nothing is invented and nothing lost: the join has exactly the Services
      without a CI, the CIs without a CD, and the chains. */
  lemma JoinIsComplete(services: seq<Svc>, cis: seq<Ci>, cds: seq<Cd>, p: Pipeline)
    ensures p in NestedJoin(services, cis, cds) <==> p.service in services && Row(cis, cds, p)
  {
    RowsHave(services, CisOf(cis), CdsOf(cds), p);
    BuildsAre(cis, p.service);
    NoneSelected(cis, c => CiOf(c, p.service));
    if p.ci.Some? {
      SelectHas(cis, c => CiOf(c, p.service), p.ci.value);
      DeploysAre(cds, p.ci.value);
      NoneSelected(cds, d => CdOf(d, p.ci.value));
      if p.cd.Some? {
        SelectHas(cds, d => CdOf(d, p.ci.value), p.cd.value);
      }
    }
  }

  /** So every Service has a row, and every CI of a Service. */
  lemma EveryoneAppears(services: seq<Svc>, cis: seq<Ci>, cds: seq<Cd>, s: Svc)
    requires s in services
    ensures exists p :: p in NestedJoin(services, cis, cds) && p.service == s
    ensures forall c | c in cis && Builds(c, s) ::
      exists p :: p in NestedJoin(services, cis, cds) && p.service == s && p.ci == Some(c)
  {
    forall c | c in cis && Builds(c, s)
      ensures exists p :: p in NestedJoin(services, cis, cds) && p.service == s && p.ci == Some(c)
    {
      if d :| d in cds && Deploys(d, c) {
        JoinIsComplete(services, cis, cds, Pipeline(s, Some(c), Some(d)));
      } else {
        JoinIsComplete(services, cis, cds, Pipeline(s, Some(c), None));
      }
    }
    if forall c | c in cis :: !Builds(c, s) {
      JoinIsComplete(services, cis, cds, Pipeline(s, None, None));
    }
  }

  // The order of the rows, and that none is repeated: one more Service, CI or
  // CD adds its rows at the end of those that it belongs to.

  lemma Associative<T>(a: seq<T>, b: seq<T>, c: seq<T>)
    ensures (a + b) + c == a + (b + c)
  {
  }

  function RowsOf(s: Svc, cis: Svc -> seq<Ci>, cds: Ci -> seq<Cd>): seq<Pipeline> {
    if cis(s) == [] then [Pipeline(s, None, None)] else ServiceRows(s, cis(s), cds)
  }

  lemma RowsFirst(services: seq<Svc>, cis: Svc -> seq<Ci>, cds: Ci -> seq<Cd>)
    requires services != []
    ensures Rows(services, cis, cds) == RowsOf(services[0], cis, cds) + Rows(services[1..], cis, cds)
  {
  }

  lemma {:induction false} RowsAppend(a: seq<Svc>, b: seq<Svc>, cis: Svc -> seq<Ci>, cds: Ci -> seq<Cd>)
    ensures Rows(a + b, cis, cds) == Rows(a, cis, cds) + Rows(b, cis, cds)
  {
    if a == [] {
      assert a + b == b;
      assert [] + Rows(b, cis, cds) == Rows(b, cis, cds);
    } else {
      var whole := a + b;
      assert whole[0] == a[0] && whole[1..] == a[1..] + b;
      RowsFirst(whole, cis, cds);
      RowsFirst(a, cis, cds);
      RowsAppend(a[1..], b, cis, cds);
      Associative(RowsOf(a[0], cis, cds), Rows(a[1..], cis, cds), Rows(b, cis, cds));
    }
  }

  lemma ServiceRowsFirst(s: Svc, mine: seq<Ci>, cds: Ci -> seq<Cd>)
    requires mine != []
    ensures ServiceRows(s, mine, cds) == Chains(s, mine[0], cds(mine[0])) + ServiceRows(s, mine[1..], cds)
  {
  }

  lemma {:induction false} ServiceRowsAppend(s: Svc, a: seq<Ci>, b: seq<Ci>, cds: Ci -> seq<Cd>)
    ensures ServiceRows(s, a + b, cds) == ServiceRows(s, a, cds) + ServiceRows(s, b, cds)
  {
    if a == [] {
      assert a + b == b;
      assert [] + ServiceRows(s, b, cds) == ServiceRows(s, b, cds);
    } else {
      var whole := a + b;
      assert whole[0] == a[0] && whole[1..] == a[1..] + b;
      ServiceRowsFirst(s, whole, cds);
      ServiceRowsFirst(s, a, cds);
      ServiceRowsAppend(s, a[1..], b, cds);
      Associative(Chains(s, a[0], cds(a[0])), ServiceRows(s, a[1..], cds), ServiceRows(s, b, cds));
    }
  }

  lemma SelectOneMore<T>(items: seq<T>, p: T -> bool, x: T)
    ensures Select(items + [x], p) == Select(items, p) + if p(x) then [x] else []
  {
    assert (items + [x])[..|items|] == items;
  }

  lemma RowsOfOne(s: Svc, cis: Svc -> seq<Ci>, cds: Ci -> seq<Cd>)
    ensures Rows([s], cis, cds) == RowsOf(s, cis, cds)
  {
    RowsFirst([s], cis, cds);
    assert [s][1..] == [] && RowsOf(s, cis, cds) + [] == RowsOf(s, cis, cds);
  }

  /** The rows of one Service, from its CIs and their CDs. */
  lemma JoinOfOne(s: Svc, cis: seq<Ci>, cds: seq<Cd>, p: Ci -> bool)
    requires forall x :: p(x) == CiOf(x, s)
    ensures NestedJoin([s], cis, cds) ==
            if Select(cis, p) == [] then [Pipeline(s, None, None)]
            else ServiceRows(s, Select(cis, p), CdsOf(cds))
  {
    RowsOfOne(s, CisOf(cis), CdsOf(cds));
    SelectSame(cis, p, c => CiOf(c, s));
  }

  /** Services come in their order. */
  lemma OneMoreSvc(services: seq<Svc>, s: Svc, cis: seq<Ci>, cds: seq<Cd>)
    ensures NestedJoin([], cis, cds) == []
    ensures NestedJoin(services + [s], cis, cds) == NestedJoin(services, cis, cds) + NestedJoin([s], cis, cds)
  {
    RowsAppend(services, [s], CisOf(cis), CdsOf(cds));
  }

  /** Its CIs in theirs; the first takes the place of the row without one. */
  lemma OneMoreCi(s: Svc, cis: seq<Ci>, c: Ci, cds: seq<Cd>)
    ensures NestedJoin([s], [], cds) == [Pipeline(s, None, None)]
    ensures NestedJoin([s], cis + [c], cds) ==
            if !Builds(c, s) then NestedJoin([s], cis, cds)
            else if forall x | x in cis :: !Builds(x, s) then NestedJoin([s], [c], cds)
            else NestedJoin([s], cis, cds) + NestedJoin([s], [c], cds)
  {
    var p := (x: Ci) => CiOf(x, s);
    JoinOfOne(s, [], cds, p);
    JoinOfOne(s, cis, cds, p);
    JoinOfOne(s, cis + [c], cds, p);
    JoinOfOne(s, [c], cds, p);
    SelectOneMore(cis, p, c);
    SelectOneMore([], p, c);
    NoneSelected(cis, p);
    BuildsAre(cis + [c], s);
    assert [] + [c] == [c] && Select(cis, p) + [] == Select(cis, p);
    if p(c) {
      ServiceRowsAppend(s, Select(cis, p), [c], CdsOf(cds));
    }
  }

  /** And its CDs in theirs. */
  lemma OneMoreCd(s: Svc, c: Ci, cds: seq<Cd>, d: Cd)
    requires Builds(c, s)
    ensures NestedJoin([s], [c], []) == [Pipeline(s, Some(c), None)]
    ensures NestedJoin([s], [c], cds + [d]) ==
            if !Deploys(d, c) then NestedJoin([s], [c], cds)
            else if forall x | x in cds :: !Deploys(x, c) then [Pipeline(s, Some(c), Some(d))]
            else NestedJoin([s], [c], cds) + [Pipeline(s, Some(c), Some(d))]
  {
    var p := (x: Cd) => CdOf(x, c);
    ChainOfOne(s, c, [], p);
    ChainOfOne(s, c, cds, p);
    ChainOfOne(s, c, cds + [d], p);
    SelectOneMore(cds, p, d);
    NoneSelected(cds, p);
    DeploysAre(cds, c);
    DeploysAre([d], c);
    assert d in [d];
    OneMoreChain(s, c, Select(cds, p), d);
  }

  lemma OneMoreChain(s: Svc, c: Ci, ds: seq<Cd>, d: Cd)
    ensures Chains(s, c, ds + [d]) ==
            (if ds == [] then [] else Chains(s, c, ds)) + [Pipeline(s, Some(c), Some(d))]
    ensures ds + [] == ds
  {
  }

  lemma ChainOfOne(s: Svc, c: Ci, cds: seq<Cd>, q: Cd -> bool)
    requires Builds(c, s) && forall x :: q(x) == CdOf(x, c)
    ensures NestedJoin([s], [c], cds) == Chains(s, c, Select(cds, q))
  {
    var p := (x: Ci) => CiOf(x, s);
    JoinOfOne(s, [c], cds, p);
    BuildsAre([c], s);
    SelectOneMore([], p, c);
    assert [] + [c] == [c] && Select([c], p) == [c];
    ServiceRowsFirst(s, [c], CdsOf(cds));
    assert [c][1..] == [];
    SelectSame(cds, q, d => CdOf(d, c));
  }
}
