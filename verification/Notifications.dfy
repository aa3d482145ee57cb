/** What a pass of an Alert notifies, in terms of the Services, their CIs and
    their CDs themselves. */
module Notifications {
  import opened Common
  import opened Objects
  import opened Text
  import opened Alerts
  import opened AlertRuns

  // ------------------------------------------------ what a Service has to tell

  /** The Service has a CI in this phase for the revision it builds; the key is
      that revision at the generation in the Pod. */
  predicate Builds(s: Snapshot, phase: CIPhase, key: string, revision: string) {
    && s.ci.Some?
    && s.ci.value.phase == phase
    && s.ci.value.buildingRevision != ""
    && revision == s.ci.value.buildingRevision
    && key == revision + "@" + Decimal(s.ci.value.observed) + "/" +
              (if s.ci.value.buildPod.Some? then Decimal(s.ci.value.buildPod.value) else "")
  }

  /** The Service has a CD in this phase with an image, which is the key. */
  predicate Deploys(s: Snapshot, phase: CDPhase, key: string, revision: string) {
    && s.cd.Some?
    && s.cd.value.phase == phase
    && s.cd.value.image != ""
    && key == s.cd.value.image
    && revision == s.cd.value.revision
  }

  predicate TellsOfCI(s: Snapshot, kind: EventKind, key: string, revision: string) {
    || (kind == "CIStarted" && Builds(s, CIBuilding, key, revision))
    || (kind == "CISucceeded" && Builds(s, CISucceeded, key, revision))
    || (kind == "CIFailed" && Builds(s, CIFailed, key, revision))
  }

  predicate TellsOfCD(s: Snapshot, kind: EventKind, key: string, revision: string) {
    || (kind == "CDDeploying" && Deploys(s, CDDeploying, key, revision))
    || (kind == "CDSucceeded" && Deploys(s, CDRunning, key, revision))
    || (kind == "CDFailed" && Deploys(s, CDFailed, key, revision))
  }

  /** When there is an event of this kind, with this key, about this revision. */
  predicate Tells(s: Snapshot, kind: EventKind, key: string, revision: string) {
    || (kind == "Push" && s.revision != "" && key == s.revision && revision == s.revision)
    || TellsOfCI(s, kind, key, revision)
    || TellsOfCD(s, kind, key, revision)
  }

  lemma CIEventsTell(s: Snapshot, o: Occurrence)
    requires s.ci.Some?
    ensures o in CIEvents(s.service, s.ci.value) <==>
            o.service == s.service && TellsOfCI(s, o.kind, o.key, o.revision)
  {
  }

  lemma CDEventsTell(s: Snapshot, o: Occurrence)
    requires s.cd.Some?
    ensures o in CDEvents(s.service, s.cd.value) <==>
            o.service == s.service && TellsOfCD(s, o.kind, o.key, o.revision)
  {
  }

  /** The events of a Service are just what its status and those of its CI and
      CD tell. */
  lemma EventsAreWhatIsTold(s: Snapshot, o: Occurrence)
    ensures o in Events(s) <==> o.service == s.service && Tells(s, o.kind, o.key, o.revision)
  {
    if s.ci.Some? {
      CIEventsTell(s, o);
    }
    if s.cd.Some? {
      CDEventsTell(s, o);
    }
  }

  lemma {:induction false} OccurrencesOf(services: seq<Snapshot>, o: Occurrence)
    ensures o in Occurrences(services) <==> exists s | s in services :: o in Events(s)
  {
    if services != [] {
      var n := |services| - 1;
      OccurrencesOf(services[..n], o);
      assert services == services[..n] + [services[n]];
    }
  }

  lemma {:induction false} PairsHave(os: seq<Occurrence>, channels: seq<string>, d: Delivery)
    ensures d in Pairs(os, channels) <==> d.o in os && d.channel in channels
  {
    if os != [] {
      var n := |os| - 1;
      PairsHave(os[..n], channels, d);
      assert os == os[..n] + [os[n]];
      if d.o == os[n] && d.channel in channels {
        var i :| 0 <= i < |channels| && channels[i] == d.channel;
        assert PairsOf(os[n], channels)[i] == d;
      }
    }
  }

  // --------------------------------------------------------- who is notified

  /** The key under which the last handled occurrence is remembered. */
  function Place(d: Delivery): string {
    d.o.service + "/" + d.o.kind + "/" + d.channel
  }

  predicate EndsIn(k: string, tail: string) {
    |tail| <= |k| && k[|k| - |tail|..] == tail
  }

  lemma KnownIff(m: Sent, channel: string)
    requires '/' !in channel
    ensures channel in KnownChannels(m) <==> exists k | k in m :: EndsIn(k, "/" + channel)
  {
    forall k | k in m
      ensures AfterLast(k, '/') == Some(channel) <==> EndsIn(k, "/" + channel)
    {
      if EndsIn(k, "/" + channel) {
        var front := k[..|k| - |channel| - 1];
        assert k == front + ['/'] + channel;
        AfterLastIs(front, '/', channel);
      }
      if AfterLast(k, '/') == Some(channel) {
        AfterLastSplits(k, '/');
      }
    }
  }

  lemma {:induction false} AfterLastSplits(s: string, c: char)
    requires AfterLast(s, c).Some?
    ensures EndsIn(s, [c] + AfterLast(s, c).value)
  {
    if Last(s) != c {
      AfterLastSplits(s[..|s| - 1], c);
      assert s == s[..|s| - 1] + [Last(s)];
    }
  }

  /** This Alert may notify this channel: it has made a pass before, is not
      suspended, and knows the channel, or was not edited since. */
  ghost predicate Listens(a: Alert, channel: string) {
    && channel in a.spec.channels
    && a.status.initialized && !a.spec.suspend
    && (a.status.observed == a.generation || exists k | k in a.status.lastNotified :: EndsIn(k, "/" + channel))
  }

  /** A notification is sent exactly for what some Service tells, to a channel
      that listens, of a kind that is wanted, unless it is what the Alert
      remembers as the last for this Service, kind and channel. */
  lemma NotifiedIff(a: Alert, services: seq<Snapshot>, d: Delivery)
    requires ProperSpec(a.spec) && ProperServices(services)
    ensures
      d in SendsOf(a, services) <==>
      && (exists s | s in services :: s.service == d.o.service && Tells(s, d.o.kind, d.o.key, d.o.revision))
      && Listens(a, d.channel)
      && (a.spec.events == [] || d.o.kind in a.spec.events)
      && !(Place(d) in a.status.lastNotified && a.status.lastNotified[Place(d)] == d.o.key)
  {
    SentIff(a, services, d);
    PairsHave(Occurrences(services), a.spec.channels, d);
    OccurrencesOf(services, d.o);
    forall s | s in services
      ensures d.o in Events(s) <==> s.service == d.o.service && Tells(s, d.o.kind, d.o.key, d.o.revision)
    {
      EventsAreWhatIsTold(s, d.o);
    }
    if d.channel in a.spec.channels {
      KnownIff(a.status.lastNotified, d.channel);
    }
    if exists s | s in services :: d.o in Events(s) {
      OccurrencesApart(services);
      assert KeyOf(d) == Place(d);
    }
  }

  /** A failed build is told only of a CI that has failed, and a success only
      of one that has succeeded. */
  lemma FailureIsTold(a: Alert, services: seq<Snapshot>, d: Delivery)
    requires ProperSpec(a.spec) && ProperServices(services) && d in SendsOf(a, services)
    ensures d.o.kind == "CIFailed" || d.o.kind == "CISucceeded" ==>
              exists s | s in services ::
                && s.service == d.o.service && s.ci.Some? && s.ci.value.buildingRevision == d.o.revision
                && s.ci.value.phase == if d.o.kind == "CIFailed" then CIFailed else CISucceeded
    ensures d.o.kind == "CDFailed" || d.o.kind == "CDSucceeded" ==>
              exists s | s in services ::
                && s.service == d.o.service && s.cd.Some? && s.cd.value.revision == d.o.revision
                && s.cd.value.phase == if d.o.kind == "CDFailed" then CDFailed else CDRunning
  {
    NotifiedIff(a, services, d);
    var s :| s in services && s.service == d.o.service && Tells(s, d.o.kind, d.o.key, d.o.revision);
  }

  // ------------------------------------------------------- what is kept of it

  lemma {:induction false} NoticesAre(ds: seq<Delivery>, answers: seq<bool>, j: nat)
    requires j < |ds|
    ensures |Notices(ds, answers)| == |ds|
    ensures Notices(ds, answers)[|ds| - 1 - j] ==
            Notice(ds[j].o.service, ds[j].o.kind, ds[j].channel, ds[j].o.revision, j < |answers| && answers[j])
  {
    var n := |ds| - 1;
    if j < n {
      NoticesAre(ds[..n], answers, j);
    } else if n > 0 {
      NoticesAre(ds[..n], answers, 0);
    }
  }

  /** The i-th entry, after these sends were added to what there was. */
  predicate Entry(ds: seq<Delivery>, answers: seq<bool>, was: seq<Notice>, i: nat, n: Notice)
    requires i < |ds| + |was|
  {
    if i >= |ds| then n == was[i - |ds|]
    else
      var d, j := ds[|ds| - 1 - i], |ds| - 1 - i;
      n == Notice(d.o.service, d.o.kind, d.channel, d.o.revision, j < |answers| && answers[j])
  }

  lemma EntryOfNewest(ds: seq<Delivery>, answers: seq<bool>, was: seq<Notice>, i: nat)
    requires i < |Newest(Notices(ds, answers) + was)|
    ensures |Notices(ds, answers)| == |ds| && Entry(ds, answers, was, i, Newest(Notices(ds, answers) + was)[i])
  {
    if ds != [] {
      NoticesAre(ds, answers, if i < |ds| then |ds| - 1 - i else 0);
    }
    assert Newest(Notices(ds, answers) + was)[i] == (Notices(ds, answers) + was)[i];
  }

  lemma NewestCount(ds: seq<Delivery>, answers: seq<bool>, was: seq<Notice>)
    ensures |Newest(Notices(ds, answers) + was)| == if |ds| + |was| > 20 then 20 else |ds| + |was|
  {
    if ds != [] {
      NoticesAre(ds, answers, 0);
    }
  }

  /** The deliveries that a pass leaves: what it sent, the last first, each with
      its success, then those there were before; twenty at most. */
  lemma DeliveriesAreTheNewest(a: Alert, services: seq<Snapshot>, answers: seq<bool>)
    ensures
      var ds, was, now := SendsOf(a, services), a.status.deliveries, PassStatus(a, services, answers).deliveries;
      && |now| == (if |ds| + |was| > 20 then 20 else |ds| + |was|)
      && forall i: nat | i < |now| :: Entry(ds, answers, was, i, now[i])
  {
    var ds, was := SendsOf(a, services), a.status.deliveries;
    NewestCount(ds, answers, was);
    forall i: nat | i < |Newest(Notices(ds, answers) + was)|
      ensures Entry(ds, answers, was, i, Newest(Notices(ds, answers) + was)[i])
    {
      EntryOfNewest(ds, answers, was, i);
    }
  }
}
