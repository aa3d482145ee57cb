/** What the state of an Alert means over whole runs of passes, spec edits,
    failed deliveries and status writes that are lost after the notifications
    went out. */
module AlertRuns {
  import opened Common
  import opened Objects
  import opened Text
  import opened Alerts

  // ------------------------------------------------- what the planner is fed

  /** Channel names follow a pattern without a slash and are a map's keys. */
  predicate ProperSpec(spec: AlertSpec) {
    && (forall c | c in spec.channels :: '/' !in c)
    && forall i, j | 0 <= i < j < |spec.channels| :: spec.channels[i] != spec.channels[j]
  }

  /** The selected Services of one namespace: their names are distinct. */
  predicate ProperServices(services: seq<Snapshot>) {
    && (forall s | s in services :: '/' !in s.service)
    && forall i, j | 0 <= i < j < |services| :: services[i].service != services[j].service
  }

  predicate Apart(os: seq<Occurrence>) {
    && (forall o | o in os :: '/' !in o.service && '/' !in o.kind && o.key != "")
    && forall i, j | 0 <= i < j < |os| :: os[i].service != os[j].service || os[i].kind != os[j].kind
  }

  predicate Distinct(ps: seq<Delivery>) {
    && (forall d | d in ps :: Proper(SlotOf(d)))
    && forall i, j | 0 <= i < j < |ps| :: SlotOf(ps[i]) != SlotOf(ps[j])
  }

  lemma CIEventKinds(service: string, ci: CIStatus)
    ensures
      var os := CIEvents(service, ci);
      |os| <= 1 && forall o | o in os ::
        o.service == service && o.key != "" && |o.kind| > 1 && o.kind[1] == 'I' && '/' !in o.kind
  {
  }

  lemma CDEventKinds(service: string, cd: CDStatus)
    ensures
      var os := CDEvents(service, cd);
      |os| <= 1 && forall o | o in os ::
        o.service == service && o.key != "" && |o.kind| > 1 && o.kind[1] == 'D' && '/' !in o.kind
  {
  }

  /** A snapshot shows at most one occurrence of each kind. */
  lemma OneOfAKind(s: Snapshot)
    requires '/' !in s.service
    ensures Apart(Events(s)) && forall o | o in Events(s) :: o.service == s.service
  {
    if s.ci.Some? {
      CIEventKinds(s.service, s.ci.value);
    }
    if s.cd.Some? {
      CDEventKinds(s.service, s.cd.value);
    }
  }

  lemma {:induction false} OccurrencesApart(services: seq<Snapshot>)
    requires ProperServices(services)
    ensures Apart(Occurrences(services))
    ensures forall o | o in Occurrences(services) :: o.service in Names(services)
  {
    if services != [] {
      var n := |services| - 1;
      OccurrencesApart(services[..n]);
      OneOfAKind(services[n]);
      assert forall o | o in Occurrences(services[..n]) :: o.service != services[n].service;
    }
  }

  lemma {:induction false} PairsDistinct(os: seq<Occurrence>, spec: AlertSpec)
    requires Apart(os) && ProperSpec(spec)
    ensures Distinct(Pairs(os, spec.channels))
    ensures forall d | d in Pairs(os, spec.channels) :: d.o in os && d.channel in spec.channels
  {
    if os != [] {
      var n := |os| - 1;
      PairsDistinct(os[..n], spec);
      var ps, qs := Pairs(os[..n], spec.channels), PairsOf(os[n], spec.channels);
      forall i, j | 0 <= i < |ps| && 0 <= j < |qs|
        ensures SlotOf(ps[i]) != SlotOf(qs[j])
      {
        assert ps[i].o in os[..n];
      }
    }
  }

  /** No two pairs of a pass share a place in the state. */
  lemma PassPairs(a: Alert, services: seq<Snapshot>)
    requires ProperSpec(a.spec) && ProperServices(services)
    ensures Distinct(AllPairs(a, services))
    ensures forall d | d in AllPairs(a, services) :: d.o.service in Names(services) && d.channel in a.spec.channels
  {
    OccurrencesApart(services);
    PairsDistinct(Occurrences(services), a.spec);
  }

  lemma SamePair(ps: seq<Delivery>, d: Delivery, e: Delivery)
    requires Distinct(ps) && d in ps && e in ps && SlotOf(d) == SlotOf(e)
    ensures d == e
  {
  }

  lemma {:induction false} SendsAre(inp: Input, ps: seq<Delivery>)
    requires Distinct(ps)
    ensures Distinct(Sends(inp, ps))
    ensures forall d | d in Sends(inp, ps) :: d in ps && Judge(inp, d) == Send
  {
    if ps != [] {
      var n := |ps| - 1;
      SendsAre(inp, ps[..n]);
      assert forall d | d in Sends(inp, ps[..n]) :: SlotOf(d) != SlotOf(ps[n]);
    }
  }

  // ------------------------------------------------------ one pass, counted

  function Unhandled(m: Sent, ps: seq<Delivery>): nat {
    if ps == [] then 0 else Unhandled(m, ps[..|ps| - 1]) + if Handled(m, Last(ps)) then 0 else 1
  }

  /** The deliveries that did not get through, in order. */
  function Failed(ds: seq<Delivery>, answers: seq<bool>): seq<Delivery> {
    if ds == [] then []
    else Failed(ds[..|ds| - 1], answers) + if Accepted(answers, |ds| - 1) then [] else [Last(ds)]
  }

  lemma {:induction false} RecordedAt(inp: Input, ps: seq<Delivery>, d: Delivery)
    requires Distinct(ps) && Proper(SlotOf(d))
    ensures
      var m := Records(inp, ps);
      && (d in ps && Judge(inp, d) == Record ==> KeyOf(d) in m && m[KeyOf(d)] == d.o.key)
      && (KeyOf(d) in m ==> exists e :: e in ps && SlotOf(e) == SlotOf(d) && Judge(inp, e) == Record)
  {
    if ps != [] {
      var n := |ps| - 1;
      RecordedAt(inp, ps[..n], d);
      assert ps == ps[..n] + [ps[n]];
      StateKeyInjective(SlotOf(d), SlotOf(ps[n]));
    }
  }

  /** What sending leaves at a place: the key if it got through. */
  lemma {:induction false} DeliveredAt(m: Sent, ds: seq<Delivery>, answers: seq<bool>, j: nat)
    requires Distinct(ds) && j < |ds|
    ensures
      Lookup(Replay(m, SendLog(ds, answers)), KeyOf(ds[j])) ==
      if Accepted(answers, j) then ds[j].o.key else Lookup(m, KeyOf(ds[j]))
  {
    var n := |ds| - 1;
    OneMoreDelivery(m, ds, n, answers);
    assert ds[..n + 1] == ds;
    if j == n {
      NotDelivered(m, ds[..n], answers, SlotOf(ds[n]));
    } else {
      DeliveredAt(m, ds[..n], answers, j);
      StateKeyInjective(SlotOf(ds[j]), SlotOf(ds[n]));
    }
  }

  lemma {:induction false} NotDelivered(m: Sent, ds: seq<Delivery>, answers: seq<bool>, slot: Slot)
    requires Distinct(ds) && Proper(slot) && forall d | d in ds :: SlotOf(d) != slot
    ensures Lookup(Replay(m, SendLog(ds, answers)), StateKey(slot)) == Lookup(m, StateKey(slot))
  {
    if ds != [] {
      var n := |ds| - 1;
      OneMoreDelivery(m, ds, n, answers);
      assert ds[..n + 1] == ds;
      NotDelivered(m, ds[..n], answers, slot);
      StateKeyInjective(SlotOf(ds[n]), slot);
    }
  }

  lemma {:induction false} SendsInOrder(inp: Input, ps: seq<Delivery>, i: nat)
    requires i < |ps| && Judge(inp, ps[i]) == Send
    ensures
      var before := Sends(inp, ps[..i]);
      |before| < |Sends(inp, ps)| && Sends(inp, ps)[|before|] == ps[i]
  {
    var n := |ps| - 1;
    if i < n {
      SendsInOrder(inp, ps[..n], i);
      assert ps[..n][..i] == ps[..i];
    }
  }

  /** A pair is handled after a pass, unless it was sent in vain. */
  predicate Outcome(inp: Input, ps: seq<Delivery>, answers: seq<bool>, m: Sent, i: nat)
    requires i < |ps|
  {
    Handled(m, ps[i]) <==> (Judge(inp, ps[i]) == Send ==> Accepted(answers, |Sends(inp, ps[..i])|))
  }

  lemma PairOutcome(inp: Input, ps: seq<Delivery>, answers: seq<bool>, i: nat)
    requires Distinct(ps) && i < |ps|
    ensures Outcome(inp, ps, answers, Replay(inp.sent + Records(inp, ps), SendLog(Sends(inp, ps), answers)), i)
  {
    var d, ds := ps[i], Sends(inp, ps);
    var recorded := inp.sent + Records(inp, ps);
    SendsAre(inp, ps);
    RecordedAt(inp, ps, d);
    if Judge(inp, d) == Send {
      SendsInOrder(inp, ps, i);
      DeliveredAt(recorded, ds, answers, |Sends(inp, ps[..i])|);
      assert Lookup(recorded, KeyOf(d)) == Lookup(inp.sent, KeyOf(d));
    } else {
      NotDelivered(recorded, ds, answers, SlotOf(d));
    }
  }

  lemma OneMoreUnhandled(m: Sent, ps: seq<Delivery>, d: Delivery)
    ensures Unhandled(m, ps + [d]) == Unhandled(m, ps) + if Handled(m, d) then 0 else 1
  {
    assert (ps + [d])[..|ps|] == ps;
  }

  lemma OneMoreSend(ds: seq<Delivery>, d: Delivery, answers: seq<bool>)
    ensures Failures(ds + [d], answers) == Failures(ds, answers) + if Accepted(answers, |ds|) then 0 else 1
    ensures Failed(ds + [d], answers) == Failed(ds, answers) + if Accepted(answers, |ds|) then [] else [d]
  {
    assert (ds + [d])[..|ds|] == ds;
  }

  lemma {:induction false} OutcomesCount(inp: Input, ps: seq<Delivery>, answers: seq<bool>, m: Sent, n: nat)
    requires n <= |ps| && forall i: nat | i < n :: Outcome(inp, ps, answers, m, i)
    ensures Unhandled(m, ps[..n]) == Failures(Sends(inp, ps[..n]), answers)
  {
    if n > 0 {
      OutcomesCount(inp, ps, answers, m, n - 1);
      var before, d := ps[..n - 1], ps[n - 1];
      assert Outcome(inp, ps, answers, m, n - 1);
      assert ps[..n] == before + [d];
      OneMorePair(inp, before, d);
      OneMoreUnhandled(m, before, d);
      OneMoreSend(Sends(inp, before), d, answers);
      assert Sends(inp, before) + [] == Sends(inp, before);
    }
  }

  /** After a pass that commits, the occurrences and channels that are still
      unhandled number exactly the deliveries that failed. */
  lemma UnhandledAreTheFailed(a: Alert, services: seq<Snapshot>, answers: seq<bool>)
    requires ProperSpec(a.spec) && ProperServices(services)
    ensures
      Unhandled(PassStatus(a, services, answers).lastNotified, AllPairs(a, services)) ==
      Failures(SendsOf(a, services), answers)
  {
    var inp, ps := InputOf(a, services), AllPairs(a, services);
    PassPairs(a, services);
    forall i: nat | i < |ps|
      ensures Outcome(inp, ps, answers, PassStatus(a, services, answers).lastNotified, i)
    {
      PairOutcome(inp, ps, answers, i);
    }
    OutcomesCount(inp, ps, answers, PassStatus(a, services, answers).lastNotified, |ps|);
    assert ps[..|ps|] == ps;
  }

  /** A pair needs a notification again exactly if it is still unhandled. */
  predicate Retried(again: Input, m: Sent, ps: seq<Delivery>, i: nat)
    requires i < |ps|
  {
    Judge(again, ps[i]) == Send <==> !Handled(m, ps[i])
  }

  lemma RetryStep(inp: Input, again: Input, before: seq<Delivery>, d: Delivery, answers: seq<bool>)
    requires Sends(again, before) == Failed(Sends(inp, before), answers)
    requires Judge(again, d) == Send <==> Judge(inp, d) == Send && !Accepted(answers, |Sends(inp, before)|)
    ensures Sends(again, before + [d]) == Failed(Sends(inp, before + [d]), answers)
  {
    var ds := Sends(inp, before);
    OneMorePair(inp, before, d);
    OneMorePair(again, before, d);
    OneMoreSend(ds, d, answers);
    assert ds + [] == ds && Failed(ds, answers) + [] == Failed(ds, answers);
  }

  lemma {:induction false} RetriesInOrder(inp: Input, again: Input, ps: seq<Delivery>, answers: seq<bool>, m: Sent,
                                          n: nat)
    requires n <= |ps|
    requires forall i: nat | i < n :: Outcome(inp, ps, answers, m, i) && Retried(again, m, ps, i)
    ensures Sends(again, ps[..n]) == Failed(Sends(inp, ps[..n]), answers)
  {
    if n > 0 {
      RetriesInOrder(inp, again, ps, answers, m, n - 1);
      var before, d := ps[..n - 1], ps[n - 1];
      assert Outcome(inp, ps, answers, m, n - 1) && Retried(again, m, ps, n - 1);
      assert ps[..n] == before + [d];
      RetryStep(inp, again, before, d, answers);
    }
  }

  lemma KeptAt(m: Sent, services: set<string>, slot: Slot)
    requires Proper(slot) && slot.service in services
    ensures Lookup(Kept(m, services), StateKey(slot)) == Lookup(m, StateKey(slot))
  {
    StateKeyParts(slot);
  }

  /** The next pass over the same Services sends exactly the deliveries that
      failed, in the same order: nothing is lost and nothing sent twice. */
  lemma RetriesExactlyTheFailed(a: Alert, services: seq<Snapshot>, answers: seq<bool>)
    requires ProperSpec(a.spec) && ProperServices(services)
    ensures
      SendsOf(a.(status := PassStatus(a, services, answers)), services) == Failed(SendsOf(a, services), answers)
  {
    var after := a.(status := PassStatus(a, services, answers));
    var inp, again, ps := InputOf(a, services), InputOf(after, services), AllPairs(a, services);
    var m := after.status.lastNotified;
    PassPairs(a, services);
    forall i: nat | i < |ps|
      ensures Outcome(inp, ps, answers, m, i) && Retried(again, m, ps, i)
    {
      PairOutcome(inp, ps, answers, i);
      KeptAt(m, Names(services), SlotOf(ps[i]));
      assert ps[i].channel in a.spec.channels;
    }
    RetriesInOrder(inp, again, ps, answers, m, |ps|);
    assert ps[..|ps|] == ps;
  }

  lemma {:induction false} SendsHas(inp: Input, ps: seq<Delivery>, d: Delivery)
    ensures d in Sends(inp, ps) <==> d in ps && Judge(inp, d) == Send
  {
    if ps != [] {
      SendsHas(inp, ps[..|ps| - 1], d);
      assert ps == ps[..|ps| - 1] + [Last(ps)];
    }
  }

  /** Who is notified: a pair of an initialized Alert that is not suspended,
      on a channel that is not new, of a wanted kind, whose key is not the one
      remembered. */
  lemma SentIff(a: Alert, services: seq<Snapshot>, d: Delivery)
    requires ProperSpec(a.spec) && ProperServices(services)
    ensures
      d in SendsOf(a, services) <==>
      && d in AllPairs(a, services)
      && a.status.initialized && !a.spec.suspend
      && (a.status.observed == a.generation || d.channel in KnownChannels(a.status.lastNotified))
      && (a.spec.events == [] || d.o.kind in a.spec.events)
      && Lookup(a.status.lastNotified, KeyOf(d)) != d.o.key
  {
    PassPairs(a, services);
    SendsHas(InputOf(a, services), AllPairs(a, services), d);
    if d in AllPairs(a, services) {
      KeptAt(a.status.lastNotified, Names(services), SlotOf(d));
    }
  }

  // ------------------------------------------------------------- whole runs

  /** A user edits the spec, or the reconciler makes a pass; committed says
      whether its status write is accepted. */
  datatype Change = Edit(spec: AlertSpec) | Pass(services: seq<Snapshot>, answers: seq<bool>, committed: bool)

  /** log is what the passes did, in order. */
  datatype Life = Life(alert: Alert, log: seq<Entry>)

  function PassLog(a: Alert, services: seq<Snapshot>, answers: seq<bool>): seq<Entry> {
    [Pruned(Names(services))]
    + RecordLog(InputOf(a, services), AllPairs(a, services))
    + SendLog(SendsOf(a, services), answers)
  }

  /** The notifications that a pass got through before its status write was
      lost: nothing else of such a pass remains. */
  function LostLog(ds: seq<Delivery>, answers: seq<bool>): seq<Entry> {
    if ds == [] then []
    else
      var n := |ds| - 1;
      LostLog(ds[..n], answers) + if Accepted(answers, n) then [Unrecorded(SlotOf(ds[n]), ds[n].o.key)] else []
  }

  function Changed(l: Life, c: Change): Life {
    match c
    case Edit(spec) =>
      l.(alert := l.alert.(
         generation := if spec == l.alert.spec then l.alert.generation else l.alert.generation + 1,
         spec := spec))
    case Pass(services, answers, committed) =>
      if !committed then l.(log := l.log + LostLog(SendsOf(l.alert, services), answers))
      else
        Life(l.alert.(status := PassStatus(l.alert, services, answers)),
             l.log + PassLog(l.alert, services, answers))
  }

  function Lived(spec: AlertSpec, changes: seq<Change>): Life {
    if changes == [] then Life(Alert(1, spec, AlertStatus(map[], false, 0, [])), [])
    else Changed(Lived(spec, changes[..|changes| - 1]), Last(changes))
  }

  predicate ProperChange(c: Change) {
    match c
    case Edit(spec) => ProperSpec(spec)
    case Pass(services, _, _) => ProperServices(services)
  }

  predicate ProperLife(spec: AlertSpec, changes: seq<Change>) {
    ProperSpec(spec) && forall c | c in changes :: ProperChange(c)
  }

  predicate ProperLog(log: seq<Entry>) {
    forall e | e in log && !e.Pruned? :: Proper(e.slot)
  }

  /** The key that a committed pass last handled at a place since its service
      was last pruned, if any: read off the log from its end. */
  function LastHandled(log: seq<Entry>, slot: Slot): Option<string> {
    if log == [] then None
    else
      var rest := log[..|log| - 1];
      match Last(log)
      case Pruned(services) => if slot.service in services then LastHandled(rest, slot) else None
      case Done(s, key, _) => if s == slot then Some(key) else LastHandled(rest, slot)
      case Unrecorded(_, _) => LastHandled(rest, slot)
  }

  function Find(m: Sent, k: string): Option<string> {
    if k in m then Some(m[k]) else None
  }

  lemma {:induction false} ReplayIsLastHandled(log: seq<Entry>, slot: Slot)
    requires ProperLog(log) && Proper(slot)
    ensures Find(Replay(map[], log), StateKey(slot)) == LastHandled(log, slot)
  {
    if log != [] {
      var rest := log[..|log| - 1];
      ReplayIsLastHandled(rest, slot);
      match Last(log) {
        case Pruned(_) => StateKeyParts(slot);
        case Done(s, _, _) => StateKeyInjective(s, slot);
        case Unrecorded(_, _) =>
      }
    }
  }

  lemma {:induction false} ReplaySplits(m: Sent, a: seq<Entry>, b: seq<Entry>)
    ensures Replay(m, a + b) == Replay(Replay(m, a), b)
  {
    if b == [] {
      assert a + b == a;
    } else {
      ReplaySplits(m, a, b[..|b| - 1]);
      assert (a + b)[..|a + b| - 1] == a + b[..|b| - 1];
    }
  }

  lemma UpdateJoins(m: Sent, records: Sent, k: string, v: string)
    ensures (m + records)[k := v] == m + records[k := v]
  {
  }

  lemma OneMoreEntry(m: Sent, log: seq<Entry>, e: Entry)
    ensures Replay(m, log + [e]) == Entered(Replay(m, log), e)
  {
    assert (log + [e])[..|log|] == log;
  }

  lemma {:induction false} RecordsReplay(inp: Input, ps: seq<Delivery>, m: Sent)
    ensures Replay(m, RecordLog(inp, ps)) == m + Records(inp, ps)
  {
    if ps != [] {
      var earlier, d := ps[..|ps| - 1], Last(ps);
      var before, e := RecordLog(inp, earlier), Done(SlotOf(d), d.o.key, false);
      RecordsReplay(inp, earlier, m);
      if Judge(inp, d) == Record {
        assert RecordLog(inp, ps) == before + [e];
        OneMoreEntry(m, before, e);
        UpdateJoins(m, Records(inp, earlier), KeyOf(d), d.o.key);
      } else {
        assert RecordLog(inp, ps) == before + [] == before;
      }
    }
  }

  lemma PassReplays(a: Alert, services: seq<Snapshot>, answers: seq<bool>)
    ensures PassStatus(a, services, answers).lastNotified ==
            Replay(a.status.lastNotified, PassLog(a, services, answers))
  {
    var m, inp, ps := a.status.lastNotified, InputOf(a, services), AllPairs(a, services);
    var first, second := [Pruned(Names(services))], RecordLog(inp, ps);
    ReplaySplits(m, first + second, SendLog(SendsOf(a, services), answers));
    ReplaySplits(m, first, second);
    assert first[..0] == [];
    RecordsReplay(inp, ps, Kept(m, Names(services)));
  }

  predicate Differ(log: seq<Entry>) {
    && (forall e | e in log :: e.Done?)
    && forall i, j | 0 <= i < j < |log| :: log[i].slot != log[j].slot
  }

  /** The entry of a pair that the pass recorded or sent. */
  predicate EntryOf(e: Entry, d: Delivery) {
    e.Done? && e.slot == SlotOf(d) && e.key == d.o.key
  }

  predicate FromSome(e: Entry, inp: Input, ps: seq<Delivery>, verdict: Verdict) {
    exists d :: d in ps && EntryOf(e, d) && Judge(inp, d) == verdict
  }

  /** One more pair, and perhaps its entry. */
  lemma EntriesGrow(log: seq<Entry>, e: Entry, inp: Input, before: seq<Delivery>, d: Delivery, verdict: Verdict)
    requires Distinct(before + [d]) && Differ(log) && EntryOf(e, d) && Judge(inp, d) == verdict
    requires forall f | f in log :: FromSome(f, inp, before, verdict)
    ensures Differ(log + [e])
    ensures forall f | f in log + [e] :: FromSome(f, inp, before + [d], verdict)
  {
    EntriesKeep(log, inp, before, d, verdict);
    var ps := before + [d];
    assert ps[|before|] == d;
    forall f | f in log
      ensures f.slot != e.slot
    {
      var g :| g in before && EntryOf(f, g) && Judge(inp, g) == verdict;
      var i :| 0 <= i < |before| && before[i] == g;
      assert ps[i] == g;
    }
    assert d in ps;
  }

  lemma EntriesKeep(log: seq<Entry>, inp: Input, before: seq<Delivery>, d: Delivery, verdict: Verdict)
    requires forall f | f in log :: FromSome(f, inp, before, verdict)
    ensures forall f | f in log :: FromSome(f, inp, before + [d], verdict)
  {
    forall f | f in log
      ensures FromSome(f, inp, before + [d], verdict)
    {
      var g :| g in before && EntryOf(f, g) && Judge(inp, g) == verdict;
      assert g in before + [d];
    }
  }

  lemma {:induction false} RecordEntries(inp: Input, ps: seq<Delivery>)
    requires Distinct(ps)
    ensures Differ(RecordLog(inp, ps))
    ensures forall e | e in RecordLog(inp, ps) :: FromSome(e, inp, ps, Record)
  {
    if ps != [] {
      var before, d := ps[..|ps| - 1], Last(ps);
      var log := RecordLog(inp, before);
      RecordEntries(inp, before);
      assert ps == before + [d] && log + [] == log;
      EntriesKeep(log, inp, before, d, Record);
      if Judge(inp, d) == Record {
        EntriesGrow(log, Done(SlotOf(d), d.o.key, false), inp, before, d, Record);
      }
    }
  }

  lemma {:induction false} SendEntries(inp: Input, ds: seq<Delivery>, answers: seq<bool>)
    requires Distinct(ds) && forall d | d in ds :: Judge(inp, d) == Send
    ensures Differ(SendLog(ds, answers))
    ensures forall e | e in SendLog(ds, answers) :: FromSome(e, inp, ds, Send)
  {
    if ds != [] {
      var before, d := ds[..|ds| - 1], Last(ds);
      var log := SendLog(before, answers);
      SendEntries(inp, before, answers);
      assert ds == before + [d] && log + [] == log;
      EntriesKeep(log, inp, before, d, Send);
      EntriesGrow(log, Done(SlotOf(d), d.o.key, true), inp, before, d, Send);
    }
  }

  function PassTail(a: Alert, services: seq<Snapshot>, answers: seq<bool>): seq<Entry> {
    RecordLog(InputOf(a, services), AllPairs(a, services)) + SendLog(SendsOf(a, services), answers)
  }

  /** What a pass handles: no place twice, each with a key that is not the one
      remembered there. */
  predicate Fresh(e: Entry, m: Sent) {
    e.Done? && Proper(e.slot) && Find(m, StateKey(e.slot)) != Some(e.key)
  }

  lemma PassTailIsFresh(a: Alert, services: seq<Snapshot>, answers: seq<bool>)
    requires ProperSpec(a.spec) && ProperServices(services)
    ensures Differ(PassTail(a, services, answers))
    ensures forall e | e in PassTail(a, services, answers) :: Fresh(e, InputOf(a, services).sent)
  {
    var inp, ps, ds := InputOf(a, services), AllPairs(a, services), SendsOf(a, services);
    PassPairs(a, services);
    SendsAre(inp, ps);
    RecordEntries(inp, ps);
    SendEntries(inp, ds, answers);
    var rs, ss := RecordLog(inp, ps), SendLog(ds, answers);
    forall e | e in rs
      ensures Fresh(e, inp.sent)
      ensures forall f | f in ss :: e.slot != f.slot
    {
      var d :| d in ps && EntryOf(e, d) && Judge(inp, d) == Record;
      forall f | f in ss
        ensures e.slot != f.slot
      {
        var g :| g in ds && EntryOf(f, g) && Judge(inp, g) == Send;
        if SlotOf(g) == SlotOf(d) {
          SamePair(ps, d, g);
        }
      }
    }
    forall f | f in ss
      ensures Fresh(f, inp.sent)
    {
      var g :| g in ds && EntryOf(f, g) && Judge(inp, g) == Send;
    }
  }

  /** Whatever was handled or sent had a key other than the last one handled
      at its place. */
  predicate AnewAt(log: seq<Entry>, j: nat)
    requires j < |log|
  {
    !log[j].Pruned? ==> LastHandled(log[..j], log[j].slot) != Some(log[j].key)
  }

  predicate Anew(log: seq<Entry>) {
    forall j: nat | j < |log| :: AnewAt(log, j)
  }

  lemma {:induction false} LastHandledSkips(base: seq<Entry>, tail: seq<Entry>, slot: Slot)
    requires forall e | e in tail :: e.Done? && e.slot != slot
    ensures LastHandled(base + tail, slot) == LastHandled(base, slot)
  {
    if tail == [] {
      assert base + tail == base;
    } else {
      var n := |tail| - 1;
      var whole := base + tail;
      assert forall e | e in tail[..n] :: e in tail;
      LastHandledSkips(base, tail[..n], slot);
      assert tail[n] in tail && Last(whole) == tail[n];
      assert whole[..|whole| - 1] == base + tail[..n];
    }
  }

  lemma StaysAnew(base: seq<Entry>, tail: seq<Entry>)
    requires ProperLog(base) && Anew(base)
    requires Differ(tail) && forall e | e in tail :: Fresh(e, Replay(map[], base))
    ensures ProperLog(base + tail) && Anew(base + tail)
  {
    var log := base + tail;
    forall j: nat | j < |log|
      ensures AnewAt(log, j)
    {
      if j < |base| {
        assert AnewAt(base, j);
        assert log[..j] == base[..j] && log[j] == base[j];
      } else {
        var k := j - |base|;
        assert log[..j] == base + tail[..k] && log[j] == tail[k];
        EntryAnew(base, tail, k);
      }
    }
    forall e | e in log && !e.Pruned?
      ensures Proper(e.slot)
    {
      if e in tail {
        assert Fresh(e, Replay(map[], base));
      }
    }
  }

  lemma EntryAnew(base: seq<Entry>, tail: seq<Entry>, k: nat)
    requires ProperLog(base) && k < |tail|
    requires Differ(tail) && forall e | e in tail :: Fresh(e, Replay(map[], base))
    ensures LastHandled(base + tail[..k], tail[k].slot) != Some(tail[k].key)
  {
    var e := tail[k];
    assert e in tail;
    assert Fresh(e, Replay(map[], base));
    forall f | f in tail[..k]
      ensures f.Done? && f.slot != e.slot
    {
      var i :| 0 <= i < k && tail[i] == f;
    }
    LastHandledSkips(base, tail[..k], e.slot);
    ReplayIsLastHandled(base, e.slot);
  }

  ghost predicate LifeOk(l: Life) {
    && ProperSpec(l.alert.spec)
    && ProperLog(l.log)
    && Anew(l.log)
    && l.alert.status.lastNotified == Replay(map[], l.log)
  }

  lemma PruneKeepsOk(log: seq<Entry>, services: set<string>)
    requires ProperLog(log) && Anew(log)
    ensures
      var longer := log + [Pruned(services)];
      && ProperLog(longer) && Anew(longer)
      && Replay(map[], longer) == Kept(Replay(map[], log), services)
  {
    var longer := log + [Pruned(services)];
    assert longer[..|log|] == log;
    forall j: nat | j < |longer|
      ensures AnewAt(longer, j)
    {
      if j < |log| {
        assert AnewAt(log, j);
        assert longer[..j] == log[..j];
      }
    }
  }

  lemma PassLogParts(a: Alert, log: seq<Entry>, services: seq<Snapshot>, answers: seq<bool>)
    ensures
      log + PassLog(a, services, answers) == log + [Pruned(Names(services))] + PassTail(a, services, answers)
  {
  }

  lemma PassLogOk(a: Alert, log: seq<Entry>, services: seq<Snapshot>, answers: seq<bool>)
    requires ProperSpec(a.spec) && ProperServices(services) && ProperLog(log) && Anew(log)
    requires a.status.lastNotified == Replay(map[], log)
    ensures ProperLog(log + PassLog(a, services, answers)) && Anew(log + PassLog(a, services, answers))
  {
    var pruned := log + [Pruned(Names(services))];
    PruneKeepsOk(log, Names(services));
    PassTailIsFresh(a, services, answers);
    StaysAnew(pruned, PassTail(a, services, answers));
    PassLogParts(a, log, services, answers);
  }

  lemma PassKeepsOk(l: Life, services: seq<Snapshot>, answers: seq<bool>)
    requires LifeOk(l) && ProperServices(services)
    ensures LifeOk(Changed(l, Pass(services, answers, true)))
  {
    PassLogOk(l.alert, l.log, services, answers);
    PassReplays(l.alert, services, answers);
    ReplaySplits(map[], l.log, PassLog(l.alert, services, answers));
  }

  /** A notification that a lost pass got through: to a proper place, and with
      a key that is not the one remembered there. */
  predicate FreshSend(e: Entry, m: Sent) {
    e.Unrecorded? && Proper(e.slot) && Find(m, StateKey(e.slot)) != Some(e.key)
  }

  lemma {:induction false} LostLogIsFresh(ds: seq<Delivery>, answers: seq<bool>, m: Sent)
    requires forall d | d in ds :: Proper(SlotOf(d)) && Find(m, KeyOf(d)) != Some(d.o.key)
    ensures forall e | e in LostLog(ds, answers) :: FreshSend(e, m)
  {
    if ds != [] {
      LostLogIsFresh(ds[..|ds| - 1], answers, m);
    }
  }

  lemma SendsAreFresh(a: Alert, services: seq<Snapshot>)
    requires ProperSpec(a.spec) && ProperServices(services)
    ensures
      forall d | d in SendsOf(a, services) ::
        Proper(SlotOf(d)) && Find(a.status.lastNotified, KeyOf(d)) != Some(d.o.key)
  {
    PassPairs(a, services);
    SendsAre(InputOf(a, services), AllPairs(a, services));
    forall d | d in SendsOf(a, services)
      ensures Find(a.status.lastNotified, KeyOf(d)) != Some(d.o.key)
    {
      KeptAt(a.status.lastNotified, Names(services), SlotOf(d));
    }
  }

  lemma {:induction false} SendsAloneChangeNothing(base: seq<Entry>, tail: seq<Entry>, slot: Slot)
    requires forall e | e in tail :: e.Unrecorded?
    ensures LastHandled(base + tail, slot) == LastHandled(base, slot)
    ensures Replay(map[], base + tail) == Replay(map[], base)
  {
    if tail == [] {
      assert base + tail == base;
    } else {
      var n := |tail| - 1;
      var whole := base + tail;
      assert forall e | e in tail[..n] :: e in tail;
      SendsAloneChangeNothing(base, tail[..n], slot);
      assert tail[n] in tail && Last(whole) == tail[n];
      assert whole[..|whole| - 1] == base + tail[..n];
    }
  }

  lemma LostSendIsAnew(base: seq<Entry>, tail: seq<Entry>, k: nat)
    requires ProperLog(base) && k < |tail| && FreshSend(tail[k], Replay(map[], base))
    requires forall e | e in tail :: FreshSend(e, Replay(map[], base))
    ensures LastHandled(base + tail[..k], tail[k].slot) != Some(tail[k].key)
  {
    var e := tail[k];
    assert forall f | f in tail[..k] :: f in tail;
    SendsAloneChangeNothing(base, tail[..k], e.slot);
    ReplayIsLastHandled(base, e.slot);
  }

  lemma LostSendsStayAnew(base: seq<Entry>, tail: seq<Entry>)
    requires ProperLog(base) && Anew(base)
    requires forall e | e in tail :: FreshSend(e, Replay(map[], base))
    ensures ProperLog(base + tail) && Anew(base + tail)
  {
    var log := base + tail;
    forall j: nat | j < |log|
      ensures AnewAt(log, j)
    {
      if j < |base| {
        assert AnewAt(base, j);
        assert log[..j] == base[..j] && log[j] == base[j];
      } else {
        var k := j - |base|;
        assert log[..j] == base + tail[..k] && log[j] == tail[k] && tail[k] in tail;
        LostSendIsAnew(base, tail, k);
      }
    }
    forall e | e in log && !e.Pruned?
      ensures Proper(e.slot)
    {
      if e in tail {
        assert FreshSend(e, Replay(map[], base));
      }
    }
  }

  lemma LostPassKeepsOk(l: Life, services: seq<Snapshot>, answers: seq<bool>)
    requires LifeOk(l) && ProperServices(services)
    ensures LifeOk(Changed(l, Pass(services, answers, false)))
  {
    var tail := LostLog(SendsOf(l.alert, services), answers);
    SendsAreFresh(l.alert, services);
    LostLogIsFresh(SendsOf(l.alert, services), answers, l.alert.status.lastNotified);
    LostSendsStayAnew(l.log, tail);
    SendsAloneChangeNothing(l.log, tail, Slot("", "", ""));
  }

  lemma {:induction false} LivesOk(spec: AlertSpec, changes: seq<Change>)
    requires ProperLife(spec, changes)
    ensures LifeOk(Lived(spec, changes))
  {
    if changes != [] {
      var before, c := changes[..|changes| - 1], Last(changes);
      LivesOk(spec, before);
      assert ProperChange(c);
      if c.Pass? && c.committed {
        PassKeepsOk(Lived(spec, before), c.services, c.answers);
      } else if c.Pass? {
        LostPassKeepsOk(Lived(spec, before), c.services, c.answers);
      }
    }
  }

  /** In every life of an Alert, the state remembers at each place exactly the
      key that a pass whose write got through last handled there since its
      Service was last pruned. Notifications of a pass whose write was lost are
      not remembered. */
  lemma StateIsTheLastHandled(spec: AlertSpec, changes: seq<Change>, slot: Slot)
    requires ProperLife(spec, changes) && Proper(slot)
    ensures
      var l := Lived(spec, changes);
      Find(l.alert.status.lastNotified, StateKey(slot)) == LastHandled(l.log, slot)
  {
    LivesOk(spec, changes);
    ReplayIsLastHandled(Lived(spec, changes).log, slot);
  }

  /** e makes the key at the place new again. */
  predicate Separates(e: Entry, slot: Slot, key: string) {
    match e
    case Pruned(services) => slot.service !in services
    case Done(s, k, _) => s == slot && k != key
    case Unrecorded(_, _) => false
  }

  lemma {:induction false} StillLast(log: seq<Entry>, i: nat, slot: Slot, key: string)
    requires i < |log| && log[i].Done? && log[i].slot == slot && log[i].key == key
    requires forall m | i < m < |log| :: !Separates(log[m], slot, key)
    ensures LastHandled(log, slot) == Some(key)
  {
    var n := |log| - 1;
    if i < n {
      StillLast(log[..n], i, slot, key);
      assert !Separates(log[n], slot, key);
    }
  }

  /** No notification is repeated once it is recorded: between a key that a
      committed pass handled at a place and the same key handled or sent there
      again, the Service was dropped from the Alert or another key was handled
      there. */
  lemma NothingTwice(spec: AlertSpec, changes: seq<Change>, i: nat, j: nat)
    requires ProperLife(spec, changes)
    requires
      var log := Lived(spec, changes).log;
      && i < j < |log| && log[i].Done? && !log[j].Pruned?
      && log[i].slot == log[j].slot && log[i].key == log[j].key
    ensures
      var log := Lived(spec, changes).log;
      exists m :: i < m < j && Separates(log[m], log[i].slot, log[i].key)
  {
    LivesOk(spec, changes);
    var log := Lived(spec, changes).log;
    assert AnewAt(log, j);
    if forall m | i < m < j :: !Separates(log[m], log[i].slot, log[i].key) {
      StillLast(log[..j], i, log[i].slot, log[i].key);
      assert false;
    }
  }

  lemma {:induction false} FailedAre(ds: seq<Delivery>, answers: seq<bool>, j: nat)
    requires Distinct(ds) && j < |ds|
    ensures ds[j] in Failed(ds, answers) <==> !Accepted(answers, j)
    ensures forall d | d in Failed(ds, answers) :: d in ds
  {
    var n := |ds| - 1;
    if j < n {
      FailedAre(ds[..n], answers, j);
    } else {
      FailedOf(ds[..n], answers);
    }
    assert SlotOf(ds[j]) != SlotOf(ds[n]) || j == n;
  }

  lemma {:induction false} FailedOf(ds: seq<Delivery>, answers: seq<bool>)
    ensures forall d | d in Failed(ds, answers) :: d in ds
  {
    if ds != [] {
      FailedOf(ds[..|ds| - 1], answers);
    }
  }

  /** The exact rule: a notification that got through goes out again with the
      next pass over the same Services if and only if the status write of its
      own pass was lost. */
  lemma SentAgainIff(l: Life, services: seq<Snapshot>, answers: seq<bool>, committed: bool, j: nat)
    requires ProperSpec(l.alert.spec) && ProperServices(services)
    requires j < |SendsOf(l.alert, services)| && Accepted(answers, j)
    ensures
      var after := Changed(l, Pass(services, answers, committed)).alert;
      SendsOf(l.alert, services)[j] in SendsOf(after, services) <==> !committed
  {
    if committed {
      PassPairs(l.alert, services);
      SendsAre(InputOf(l.alert, services), AllPairs(l.alert, services));
      RetriesExactlyTheFailed(l.alert, services, answers);
      FailedAre(SendsOf(l.alert, services), answers, j);
    }
  }

  function Pushed(service: string, revision: string): seq<Snapshot> {
    [Snapshot(service, revision, None, None)]
  }

  /** The passes over one Service that has one pushed revision: the first is of
      a new Alert, the second loses its write. */
  function WriteLost(service: string, revision: string): seq<Change> {
    var pushed := Pushed(service, revision);
    [Pass([], [], true), Pass(pushed, [true], false), Pass(pushed, [true], true)]
  }

  lemma OnePair(o: Occurrence, channel: string)
    ensures Pairs([o], [channel]) == [Delivery(o, channel)]
  {
    assert [o][..0] == [];
    assert PairsOf(o, [channel]) == [Delivery(o, channel)];
  }

  lemma OneToSend(inp: Input, d: Delivery)
    requires Judge(inp, d) == Send
    ensures Sends(inp, [d]) == [d] && RecordLog(inp, [d]) == []
  {
    assert [d][..0] == [];
  }

  /** An Alert that has recorded nothing, and one channel. */
  predicate Listening(a: Alert, channel: string) {
    && a.spec == AlertSpec([channel], [], false)
    && a.status.initialized && a.status.observed == a.generation && a.status.lastNotified == map[]
  }

  lemma OnePush(a: Alert, service: string, revision: string, channel: string)
    requires Listening(a, channel) && revision != ""
    ensures
      var pushed := Pushed(service, revision);
      var d := Delivery(Occurrence(service, PUSH, revision, revision), channel);
      && SendsOf(a, pushed) == [d] && RecordLog(InputOf(a, pushed), AllPairs(a, pushed)) == []
      && Names(pushed) == {service}
  {
    var o := Occurrence(service, PUSH, revision, revision);
    OneEvent(service, revision);
    OnePair(o, channel);
    OneToSend(InputOf(a, Pushed(service, revision)), Delivery(o, channel));
  }

  lemma OneEvent(service: string, revision: string)
    requires revision != ""
    ensures Occurrences(Pushed(service, revision)) == [Occurrence(service, PUSH, revision, revision)]
    ensures Names(Pushed(service, revision)) == {service}
  {
    var pushed := Pushed(service, revision);
    assert pushed[..0] == [];
    assert Events(pushed[0]) == [Occurrence(service, PUSH, revision, revision)];
  }

  lemma LostPush(l: Life, service: string, revision: string, channel: string)
    requires Listening(l.alert, channel) && revision != ""
    ensures
      Changed(l, Pass(Pushed(service, revision), [true], false)) ==
      l.(log := l.log + [Unrecorded(Slot(service, PUSH, channel), revision)])
  {
    OnePush(l.alert, service, revision, channel);
    OneSend(Delivery(Occurrence(service, PUSH, revision, revision), channel));
  }

  lemma RecordedPush(l: Life, service: string, revision: string, channel: string)
    requires Listening(l.alert, channel) && revision != ""
    ensures
      Changed(l, Pass(Pushed(service, revision), [true], true)).log ==
      l.log + [Pruned({service}), Done(Slot(service, PUSH, channel), revision, true)]
  {
    OnePush(l.alert, service, revision, channel);
    OneSend(Delivery(Occurrence(service, PUSH, revision, revision), channel));
  }

  lemma ThreeChanges(spec: AlertSpec, a: Change, b: Change, c: Change)
    ensures Lived(spec, [a, b, c]) == Changed(Changed(Changed(Lived(spec, []), a), b), c)
  {
    assert [a][..0] == [] && [a, b][..1] == [a] && [a, b, c][..2] == [a, b];
    assert Lived(spec, [a]) == Changed(Lived(spec, []), a);
    assert Lived(spec, [a, b]) == Changed(Lived(spec, [a]), b);
  }

  lemma FirstChange(channel: string)
    ensures
      var l := Changed(Lived(AlertSpec([channel], [], false), []), Pass([], [], true));
      Listening(l.alert, channel) && l.log == [Pruned({})]
  {
    FirstPass(Lived(AlertSpec([channel], [], false), []).alert);
  }

  lemma TwoPushes(l: Life, service: string, revision: string, channel: string)
    requires Listening(l.alert, channel) && revision != "" && l.log == [Pruned({})]
    ensures
      var pushed, slot := Pushed(service, revision), Slot(service, PUSH, channel);
      Changed(Changed(l, Pass(pushed, [true], false)), Pass(pushed, [true], true)).log ==
      [Pruned({}), Unrecorded(slot, revision), Pruned({service}), Done(slot, revision, true)]
  {
    LostPush(l, service, revision, channel);
    var sent := [Unrecorded(Slot(service, PUSH, channel), revision)];
    RecordedPush(l.(log := l.log + sent), service, revision, channel);
  }

  lemma WriteLostIsProper(service: string, revision: string, channel: string)
    requires '/' !in service && '/' !in channel
    ensures ProperLife(AlertSpec([channel], [], false), WriteLost(service, revision))
  {
  }

  /** So the same notification can go out twice with nothing in between. */
  lemma LostWriteSendsTwice(service: string, revision: string, channel: string)
    requires '/' !in service && '/' !in channel && revision != ""
    ensures
      var spec, changes := AlertSpec([channel], [], false), WriteLost(service, revision);
      var log, slot := Lived(spec, changes).log, Slot(service, PUSH, channel);
      && ProperLife(spec, changes)
      && log == [Pruned({}), Unrecorded(slot, revision), Pruned({service}), Done(slot, revision, true)]
      && !Separates(log[2], slot, revision)
  {
    var spec, pushed := AlertSpec([channel], [], false), Pushed(service, revision);
    WriteLostIsProper(service, revision, channel);
    ThreeChanges(spec, Pass([], [], true), Pass(pushed, [true], false), Pass(pushed, [true], true));
    FirstChange(channel);
    TwoPushes(Changed(Lived(spec, []), Pass([], [], true)), service, revision, channel);
  }

  /** A pass of an Alert that selects no Service. */
  lemma FirstPass(a: Alert)
    requires a.status.lastNotified == map[]
    ensures PassLog(a, [], []) == [Pruned({})]
    ensures PassStatus(a, [], []).lastNotified == map[]
  {
    assert AllPairs(a, []) == [] && Names([]) == {};
  }

  lemma OneSend(d: Delivery)
    ensures LostLog([d], [true]) == [Unrecorded(SlotOf(d), d.o.key)]
    ensures SendLog([d], [true]) == [Done(SlotOf(d), d.o.key, true)]
  {
    assert [d][..0] == [];
  }

  lemma {:induction false} StateHasOnlySlots(log: seq<Entry>, k: string)
    requires k in Replay(map[], log)
    ensures exists e :: e in log && e.Done? && StateKey(e.slot) == k
  {
    if log != [] {
      var rest := log[..|log| - 1];
      var e := Last(log);
      if !(e.Done? && StateKey(e.slot) == k) {
        StateHasOnlySlots(rest, k);
      }
    }
  }

  /** A channel counts as known exactly if something is remembered for it. */
  lemma KnownChannelsAreThose(spec: AlertSpec, changes: seq<Change>, channel: string)
    requires ProperLife(spec, changes)
    ensures
      var l := Lived(spec, changes);
      channel in KnownChannels(l.alert.status.lastNotified) <==>
      exists slot :: Proper(slot) && slot.channel == channel && LastHandled(l.log, slot).Some?
  {
    LivesOk(spec, changes);
    var l := Lived(spec, changes);
    var m := l.alert.status.lastNotified;
    if channel in KnownChannels(m) {
      var k :| k in m && AfterLast(k, '/') == Some(channel);
      StateHasOnlySlots(l.log, k);
      var e :| e in l.log && e.Done? && StateKey(e.slot) == k;
      StateKeyParts(e.slot);
      StateIsTheLastHandled(spec, changes, e.slot);
    }
    if slot :| Proper(slot) && slot.channel == channel && LastHandled(l.log, slot).Some? {
      StateIsTheLastHandled(spec, changes, slot);
      StateKeyParts(slot);
      assert StateKey(slot) in m;
    }
  }
}
