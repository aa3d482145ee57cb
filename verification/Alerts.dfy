/** Alerts: which pipeline events a Service shows, which of them each channel
    still needs, and what is remembered as handled. */
module Alerts {
  import opened Common
  import opened Objects
  import opened Text

  /** The event kinds are strings, as in the API. */
  type EventKind = string

  const PUSH: EventKind := "Push"
  const CI_STARTED: EventKind := "CIStarted"
  const CI_SUCCEEDED: EventKind := "CISucceeded"
  const CI_FAILED: EventKind := "CIFailed"
  const CD_DEPLOYING: EventKind := "CDDeploying"
  const CD_SUCCEEDED: EventKind := "CDSucceeded"
  const CD_FAILED: EventKind := "CDFailed"

  // ----------------------------------------------------------------- events

  /** A Service with its CI and CD, either of which may be missing. */
  datatype Snapshot = Snapshot(service: string, revision: string, ci: Option<CIStatus>, cd: Option<CDStatus>)

  datatype Occurrence = Occurrence(service: string, kind: EventKind, key: string, revision: string)

  function PodName(pod: Option<nat>): string {
    if pod.None? then "" else Decimal(pod.value)
  }

  /** One build: a revision at one spec generation in one Pod. */
  function BuildKey(ci: CIStatus): string {
    ci.buildingRevision + "@" + Decimal(ci.observed) + "/" + PodName(ci.buildPod)
  }

  function CIEvents(service: string, ci: CIStatus): seq<Occurrence> {
    if ci.buildingRevision == "" then []
    else
      match ci.phase
      case CIBuilding => [Occurrence(service, CI_STARTED, BuildKey(ci), ci.buildingRevision)]
      case CISucceeded => [Occurrence(service, CI_SUCCEEDED, BuildKey(ci), ci.buildingRevision)]
      case CIFailed => [Occurrence(service, CI_FAILED, BuildKey(ci), ci.buildingRevision)]
      case _ => []
  }

  function CDEvents(service: string, cd: CDStatus): seq<Occurrence> {
    if cd.image == "" then []
    else
      match cd.phase
      case CDDeploying => [Occurrence(service, CD_DEPLOYING, cd.image, cd.revision)]
      case CDRunning => [Occurrence(service, CD_SUCCEEDED, cd.image, cd.revision)]
      case CDFailed => [Occurrence(service, CD_FAILED, cd.image, cd.revision)]
      case _ => []
  }

  /** At most one occurrence of a kind: the latest that the status shows. */
  function Events(s: Snapshot): seq<Occurrence>
  {
    (if s.revision != "" then [Occurrence(s.service, PUSH, s.revision, s.revision)] else [])
    + (if s.ci.Some? then CIEvents(s.service, s.ci.value) else [])
    + (if s.cd.Some? then CDEvents(s.service, s.cd.value) else [])
  }

  /** Two builds show the same key exactly if they are the same build. */
  lemma BuildKeyNamesTheBuild(a: CIStatus, b: CIStatus)
    ensures
      BuildKey(a) == BuildKey(b) <==>
      a.buildingRevision == b.buildingRevision && a.observed == b.observed && a.buildPod == b.buildPod
  {
    if BuildKey(a) == BuildKey(b) {
      var x, y := a.buildingRevision + "@" + Decimal(a.observed), b.buildingRevision + "@" + Decimal(b.observed);
      SplitsOnce(x, PodName(a.buildPod), '/', y, PodName(b.buildPod));
      SplitsOnce(a.buildingRevision, Decimal(a.observed), '@', b.buildingRevision, Decimal(b.observed));
      DecimalInjective(a.observed, b.observed);
      if a.buildPod.Some? && b.buildPod.Some? {
        DecimalInjective(a.buildPod.value, b.buildPod.value);
      }
    }
  }

  // ------------------------------------------------------------------ state

  /** Where the last handled key is remembered. */
  datatype Slot = Slot(service: string, kind: EventKind, channel: string)

  function StateKey(s: Slot): string {
    s.service + "/" + s.kind + "/" + s.channel
  }

  /** Kubernetes names, event kinds and channel names have no slash. */
  predicate Proper(s: Slot) {
    '/' !in s.service && '/' !in s.kind && '/' !in s.channel
  }

  lemma StateKeyParts(s: Slot)
    requires Proper(s)
    ensures Before(StateKey(s), '/') == s.service
    ensures AfterLast(StateKey(s), '/') == Some(s.channel)
    ensures StateKey(s) == s.service + "/" + s.kind + "/" + s.channel
  {
    var rest := s.kind + "/" + s.channel;
    assert StateKey(s) == s.service + ['/'] + rest;
    BeforeIs(s.service, '/', rest);
    var front := s.service + "/" + s.kind;
    assert StateKey(s) == front + ['/'] + s.channel;
    AfterLastIs(front, '/', s.channel);
  }

  lemma StateKeyInjective(s: Slot, t: Slot)
    requires Proper(s) && Proper(t)
    ensures StateKey(s) == StateKey(t) <==> s == t
  {
    if StateKey(s) == StateKey(t) {
      var front, other := s.service + "/" + s.kind, t.service + "/" + t.kind;
      SplitsOnce(front, s.channel, '/', other, t.channel);
      SplitsOnce(s.service, s.kind, '/', t.service, t.kind);
    }
  }

  type Sent = map<string, string>

  function Lookup(m: Sent, k: string): string {
    if k in m then m[k] else ""
  }

  function Kept(m: Sent, services: set<string>): Sent {
    map k | k in m && Before(k, '/') in services :: m[k]
  }

  /** Prune, over the entries in any order. */
  method Prune(m: Sent, services: set<string>) returns (out: Sent)
    ensures out == Kept(m, services)
  {
    out := map[];
    var rest := m.Keys;
    while rest != {}
      invariant rest <= m.Keys
      invariant out == map k | k in m && k !in rest && Before(k, '/') in services :: m[k]
    {
      var k :| k in rest;
      if Before(k, '/') in services {
        out := out[k := m[k]];
      }
      rest := rest - {k};
    }
  }

  function KnownChannels(m: Sent): set<string> {
    set k | k in m && AfterLast(k, '/').Some? :: AfterLast(k, '/').value
  }

  /** ChannelsInState, likewise. */
  method ChannelsInState(m: Sent) returns (out: set<string>)
    ensures out == KnownChannels(m)
  {
    out := {};
    var rest := m.Keys;
    while rest != {}
      invariant rest <= m.Keys
      invariant out == set k | k in m && k !in rest && AfterLast(k, '/').Some? :: AfterLast(k, '/').value
    {
      var k :| k in rest;
      var i := AfterLast(k, '/');
      if i.Some? {
        out := out + {i.value};
      }
      rest := rest - {k};
    }
  }

  // --------------------------------------------------------------- the plan

  datatype Input = Input(
    occurrences: seq<Occurrence>,
    channels: seq<string>,
    wanted: seq<EventKind>,
    sent: Sent,
    baseline: set<string>)

  datatype Delivery = Delivery(o: Occurrence, channel: string)

  function SlotOf(d: Delivery): Slot {
    Slot(d.o.service, d.o.kind, d.channel)
  }

  function KeyOf(d: Delivery): string {
    StateKey(SlotOf(d))
  }

  predicate Handled(m: Sent, d: Delivery) {
    Lookup(m, KeyOf(d)) == d.o.key
  }

  datatype Verdict = Known | Record | Send

  function Judge(inp: Input, d: Delivery): Verdict {
    if Handled(inp.sent, d) then Known
    else if d.channel in inp.baseline || (inp.wanted != [] && d.o.kind !in inp.wanted) then Record
    else Send
  }

  function PairsOf(o: Occurrence, channels: seq<string>): seq<Delivery>
  {
    seq(|channels|, i requires 0 <= i < |channels| => Delivery(o, channels[i]))
  }

  /** Every occurrence for every channel. */
  function Pairs(occurrences: seq<Occurrence>, channels: seq<string>): seq<Delivery>
  {
    if occurrences == [] then []
    else Pairs(occurrences[..|occurrences| - 1], channels) + PairsOf(Last(occurrences), channels)
  }

  /** The pairs to send, in their order. */
  function Sends(inp: Input, ps: seq<Delivery>): seq<Delivery>
  {
    if ps == [] then []
    else Sends(inp, ps[..|ps| - 1]) + (if Judge(inp, Last(ps)) == Send then [Last(ps)] else [])
  }

  /** What is recorded without a notification. */
  function Records(inp: Input, ps: seq<Delivery>): Sent {
    if ps == [] then map[]
    else
      var m := Records(inp, ps[..|ps| - 1]);
      if Judge(inp, Last(ps)) == Record then m[KeyOf(Last(ps)) := Last(ps).o.key] else m
  }

  lemma OneMorePair(inp: Input, ps: seq<Delivery>, d: Delivery)
    ensures Sends(inp, ps + [d]) == Sends(inp, ps) + (if Judge(inp, d) == Send then [d] else [])
    ensures Records(inp, ps + [d]) ==
            if Judge(inp, d) == Record then Records(inp, ps)[KeyOf(d) := d.o.key] else Records(inp, ps)
  {
    assert (ps + [d])[..|ps|] == ps;
  }

  lemma OneMoreOccurrence(os: seq<Occurrence>, i: nat, channels: seq<string>)
    requires i < |os|
    ensures Pairs(os[..i + 1], channels) == Pairs(os[..i], channels) + PairsOf(os[i], channels)
  {
    assert os[..i + 1][..i] == os[..i];
  }

  /** The inner loop of Plan: one occurrence for every channel. */
  method PlanOccurrence(inp: Input, o: Occurrence, send0: seq<Delivery>, record0: Sent, ghost before: seq<Delivery>)
    returns (send: seq<Delivery>, record: Sent)
    requires send0 == Sends(inp, before) && record0 == Records(inp, before)
    ensures send == Sends(inp, before + PairsOf(o, inp.channels))
    ensures record == Records(inp, before + PairsOf(o, inp.channels))
  {
    send, record := send0, record0;
    ghost var ps, all := before, PairsOf(o, inp.channels);
    for j := 0 to |inp.channels|
      invariant ps == before + all[..j]
      invariant send == Sends(inp, ps) && record == Records(inp, ps)
    {
      var ch := inp.channels[j];
      var d := Delivery(o, ch);
      OneMorePair(inp, ps, d);
      assert before + all[..j + 1] == ps + [d];
      ps := ps + [d];
      var k := KeyOf(d);
      if Lookup(inp.sent, k) == o.key {
        continue;
      }
      if ch in inp.baseline || (|inp.wanted| > 0 && o.kind !in inp.wanted) {
        record := record[k := o.key];
        continue;
      }
      send := send + [d];
    }
    assert ps == before + all;
  }

  method Plan(inp: Input) returns (send: seq<Delivery>, record: Sent)
    ensures send == Sends(inp, Pairs(inp.occurrences, inp.channels))
    ensures record == Records(inp, Pairs(inp.occurrences, inp.channels))
  {
    send, record := [], map[];
    var os := inp.occurrences;
    for i := 0 to |os|
      invariant send == Sends(inp, Pairs(os[..i], inp.channels))
      invariant record == Records(inp, Pairs(os[..i], inp.channels))
    {
      OneMoreOccurrence(os, i, inp.channels);
      send, record := PlanOccurrence(inp, os[i], send, record, Pairs(os[..i], inp.channels));
    }
    assert os[..|os|] == os;
  }

  // --------------------------------------------------------------- delivery

  datatype Notice = Notice(service: string, kind: EventKind, channel: string, revision: string, success: bool)

  const MAX_DELIVERIES := 20

  /** What the log says happened, in order: the services that were still
      selected when a pass pruned the state, what was handled, and which
      notifications got through in a pass whose status write was lost. */
  datatype Entry =
    | Pruned(services: set<string>)
    | Done(slot: Slot, key: string, sent: bool)
    | Unrecorded(slot: Slot, key: string)

  /** Whether the i-th notification of a pass gets through. */
  predicate Accepted(answers: seq<bool>, i: nat) {
    i < |answers| && answers[i]
  }

  function SendLog(ds: seq<Delivery>, answers: seq<bool>): seq<Entry> {
    if ds == [] then []
    else
      var n := |ds| - 1;
      SendLog(ds[..n], answers) + if Accepted(answers, n) then [Done(SlotOf(ds[n]), ds[n].o.key, true)] else []
  }

  function RecordLog(inp: Input, ps: seq<Delivery>): seq<Entry> {
    if ps == [] then []
    else
      var d := Last(ps);
      RecordLog(inp, ps[..|ps| - 1]) + if Judge(inp, d) == Record then [Done(SlotOf(d), d.o.key, false)] else []
  }

  function Entered(m: Sent, e: Entry): Sent {
    match e
    case Pruned(services) => Kept(m, services)
    case Done(slot, key, _) => m[StateKey(slot) := key]
    case Unrecorded(_, _) => m
  }

  /** The state that a log leaves. */
  function Replay(m: Sent, log: seq<Entry>): Sent {
    if log == [] then m else Entered(Replay(m, log[..|log| - 1]), Last(log))
  }

  function Failures(ds: seq<Delivery>, answers: seq<bool>): nat {
    if ds == [] then 0
    else Failures(ds[..|ds| - 1], answers) + if Accepted(answers, |ds| - 1) then 0 else 1
  }

  function NoticeOf(d: Delivery, success: bool): Notice {
    Notice(d.o.service, d.o.kind, d.channel, d.o.revision, success)
  }

  /** Newest first. */
  function Notices(ds: seq<Delivery>, answers: seq<bool>): seq<Notice> {
    if ds == [] then []
    else [NoticeOf(Last(ds), Accepted(answers, |ds| - 1))] + Notices(ds[..|ds| - 1], answers)
  }

  lemma OneMoreDelivery(m: Sent, ds: seq<Delivery>, i: nat, answers: seq<bool>)
    requires i < |ds|
    ensures Failures(ds[..i + 1], answers) == Failures(ds[..i], answers) + if Accepted(answers, i) then 0 else 1
    ensures Replay(m, SendLog(ds[..i + 1], answers)) ==
            var sent := Replay(m, SendLog(ds[..i], answers));
            if Accepted(answers, i) then sent[KeyOf(ds[i]) := ds[i].o.key] else sent
    ensures Notices(ds[..i + 1], answers) == [NoticeOf(ds[i], Accepted(answers, i))] + Notices(ds[..i], answers)
  {
    assert ds[..i + 1][..i] == ds[..i];
    var log := SendLog(ds[..i], answers);
    var e := Done(SlotOf(ds[i]), ds[i].o.key, true);
    assert (log + [e])[..|log|] == log && log + [] == log;
  }

  function Newest(s: seq<Notice>): seq<Notice> {
    if |s| > MAX_DELIVERIES then s[..MAX_DELIVERIES] else s
  }

  datatype AlertSpec = AlertSpec(channels: seq<string>, events: seq<EventKind>, suspend: bool)

  datatype AlertStatus = AlertStatus(lastNotified: Sent, initialized: bool, observed: nat, deliveries: seq<Notice>)

  datatype Alert = Alert(generation: nat, spec: AlertSpec, status: AlertStatus)

  function Baseline(a: Alert): set<string> {
    set ch | ch in a.spec.channels &&
             (!a.status.initialized || a.spec.suspend ||
              (a.status.observed != a.generation && ch !in KnownChannels(a.status.lastNotified)))
  }

  function Names(services: seq<Snapshot>): set<string> {
    set s | s in services :: s.service
  }

  function Occurrences(services: seq<Snapshot>): seq<Occurrence>
  {
    if services == [] then []
    else Occurrences(services[..|services| - 1]) + Events(Last(services))
  }

  lemma OneMoreService(services: seq<Snapshot>, i: nat)
    requires i < |services|
    ensures Occurrences(services[..i + 1]) == Occurrences(services[..i]) + Events(services[i])
    ensures Names(services[..i + 1]) == Names(services[..i]) + {services[i].service}
  {
    assert services[..i + 1][..i] == services[..i];
    assert services[..i + 1] == services[..i] + [services[i]];
  }

  /** What a pass over these Services gives the planner. */
  function InputOf(a: Alert, services: seq<Snapshot>): Input {
    Input(Occurrences(services), a.spec.channels, a.spec.events,
          Kept(a.status.lastNotified, Names(services)), Baseline(a))
  }

  function AllPairs(a: Alert, services: seq<Snapshot>): seq<Delivery> {
    Pairs(Occurrences(services), a.spec.channels)
  }

  function SendsOf(a: Alert, services: seq<Snapshot>): seq<Delivery> {
    Sends(InputOf(a, services), AllPairs(a, services))
  }

  function PassStatus(a: Alert, services: seq<Snapshot>, answers: seq<bool>): AlertStatus {
    var inp := InputOf(a, services);
    var ds := SendsOf(a, services);
    AlertStatus(
      Replay(inp.sent + Records(inp, AllPairs(a, services)), SendLog(ds, answers)),
      true,
      a.generation,
      Newest(Notices(ds, answers) + a.status.deliveries))
  }

  /** What Reconcile collects over the Services. */
  method Gather(services: seq<Snapshot>) returns (occurrences: seq<Occurrence>, selected: set<string>)
    ensures occurrences == Occurrences(services) && selected == Names(services)
  {
    occurrences, selected := [], {};
    for i := 0 to |services|
      invariant occurrences == Occurrences(services[..i])
      invariant selected == Names(services[..i])
    {
      OneMoreService(services, i);
      selected := selected + {services[i].service};
      occurrences := occurrences + Events(services[i]);
    }
    assert services[..|services|] == services;
  }

  /** The reconciler's own copy of an Alert. */
  class AlertCopy {
    const generation: nat
    const spec: AlertSpec
    var lastNotified: Sent
    var initialized: bool
    var observed: nat
    var deliveries: seq<Notice>

    constructor (a: Alert)
      ensures Value() == a
    {
      generation := a.generation;
      spec := a.spec;
      lastNotified := a.status.lastNotified;
      initialized := a.status.initialized;
      observed := a.status.observed;
      deliveries := a.status.deliveries;
    }

    function Value(): Alert
      reads this
    {
      Alert(generation, spec, AlertStatus(lastNotified, initialized, observed, deliveries))
    }

    method BaselineChannels() returns (out: set<string>)
      ensures out == Baseline(Value())
    {
      out := {};
      var known := ChannelsInState(lastNotified);
      var specChanged := observed != generation;
      for i := 0 to |spec.channels|
        invariant out ==
                  set ch | ch in spec.channels[..i] && (!initialized || spec.suspend || (specChanged && ch !in known))
      {
        var ch := spec.channels[i];
        if !initialized || spec.suspend || (specChanged && ch !in known) {
          out := out + {ch};
        }
      }
      assert spec.channels[..|spec.channels|] == spec.channels;
    }

    /** deliver: a delivery that failed is not recorded as sent. */
    method Deliver(ds: seq<Delivery>, answers: seq<bool>, before: Sent) returns (failed: nat, sent: Sent)
      modifies this`deliveries
      ensures failed == Failures(ds, answers)
      ensures sent == Replay(before, SendLog(ds, answers))
      ensures deliveries == Newest(Notices(ds, answers) + old(deliveries))
    {
      failed, sent := 0, before;
      for i := 0 to |ds|
        invariant failed == Failures(ds[..i], answers)
        invariant sent == Replay(before, SendLog(ds[..i], answers))
        invariant deliveries == Notices(ds[..i], answers) + old(deliveries)
      {
        OneMoreDelivery(before, ds, i, answers);
        var ok := Accepted(answers, i);
        if !ok {
          failed := failed + 1;
        } else {
          sent := sent[KeyOf(ds[i]) := ds[i].o.key];
        }
        deliveries := [NoticeOf(ds[i], ok)] + deliveries;
      }
      assert ds[..|ds|] == ds;
      if |deliveries| > MAX_DELIVERIES {
        deliveries := deliveries[..MAX_DELIVERIES];
      }
    }

    /** Reconcile, once the Services and notifiers could be read. */
    method Reconcile(services: seq<Snapshot>, answers: seq<bool>) returns (failed: nat)
      modifies this
      ensures Value() == old(Value()).(status := PassStatus(old(Value()), services, answers))
      ensures failed == Failures(SendsOf(old(Value()), services), answers)
    {
      var occurrences, selected := Gather(services);
      var sent := Prune(lastNotified, selected);
      var baseline := BaselineChannels();
      var send, record := Plan(Input(occurrences, spec.channels, spec.events, sent, baseline));
      sent := sent + record;
      failed, sent := Deliver(send, answers, sent);
      lastNotified := sent;
      initialized := true;
      observed := generation;
    }
  }
}
