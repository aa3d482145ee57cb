/** The agent's session: one run at a time, over all interleavings of calls at
    their await points. A run record is an object that the list of runs and
    the call that made it share: it is named by its number. */
module Session {
  import opened Common

  datatype Event = Progress(text: string) | DoneEvent(commit: string, summary: string) | ErrorEvent(message: string)

  predicate Terminal(e: Event) {
    e.DoneEvent? || e.ErrorEvent?
  }

  datatype RunStatus = RunRunning | RunSucceeded | RunFailed

  /** events is what the run has emitted; a client that went away misses them. */
  datatype RunRecord = RunRecord(
    prompt: string,
    status: RunStatus,
    commit: string,
    summary: string,
    error: string,
    events: seq<Event>)

  /** Where a call waits: for the repository, its real path, the file list,
      the agent, the push; or it has returned. */
  datatype Place = Preparing | Resolving | Listing | Working | Pushing | Returned

  /** Call number c made run number c; a call that found the session busy made
      none. */
  datatype Sessions = Sessions(busy: bool, runs: seq<nat>, records: seq<RunRecord>, calls: seq<Place>)

  const KEEP_RUNS := 50

  function Truncated(runs: seq<nat>): seq<nat> {
    if |runs| > KEEP_RUNS then runs[..KEEP_RUNS] else runs
  }

  function Emitted(s: Sessions, run: nat, e: Event): Sessions
    requires run < |s.records|
  {
    s.(records := s.records[run := s.records[run].(events := s.records[run].events + [e])])
  }

  function Started(s: Sessions, prompt: string): Sessions {
    var run := |s.records|;
    Sessions(
      true,
      Truncated([run] + s.runs),
      s.records + [RunRecord(prompt, RunRunning, "", "", "", [Progress("Syncing the repository")])],
      s.calls + [Preparing])
  }

  function Succeeded(s: Sessions, run: nat, commit: string, summary: string): Sessions
    requires run < |s.records|
  {
    var r := s.records[run];
    s.(
    busy := false,
    records := s.records[run := r.(
                           status := RunSucceeded, commit := commit, summary := summary,
                           events := r.events + [DoneEvent(commit, summary)])])
  }

  function FailedRun(s: Sessions, run: nat, message: string): Sessions
    requires run < |s.records|
  {
    var r := s.records[run];
    s.(
    busy := false,
    records := s.records[run := r.(status := RunFailed, error := message, events := r.events + [ErrorEvent(message)])])
  }

  /** What one turn of the event loop can do: a new call, news of the agent, or
      the settlement of the promise that a call awaits. */
  datatype Turn =
    | NewCall(prompt: string)
    | AgentEmits(call: nat, text: string)
    | Resolves(call: nat, commit: string, summary: string)
    | Rejects(call: nat, message: string)

  function Moved(s: Sessions, call: nat, place: Place): Sessions
    requires call < |s.calls|
  {
    s.(calls := s.calls[call := place])
  }

  function Step(s: Sessions, t: Turn): Sessions {
    match t
    case NewCall(prompt) => if s.busy then s else Started(s, prompt)
    case AgentEmits(c, text) =>
      if c < |s.calls| && c < |s.records| && s.calls[c] == Working then Emitted(s, c, Progress(text)) else s
    case Resolves(c, commit, summary) =>
      if c >= |s.calls| || c >= |s.records| then s
      else
        (match s.calls[c]
         case Preparing => Moved(s, c, Resolving)
         case Resolving => Moved(s, c, Listing)
         case Listing => Moved(Emitted(s, c, Progress("Working")), c, Working)
         case Working => Moved(Emitted(s, c, Progress("Committing and pushing")), c, Pushing)
         case Pushing => Moved(Succeeded(s, c, commit, summary), c, Returned)
         case Returned => s)
    case Rejects(c, message) =>
      if c >= |s.calls| || c >= |s.records| || s.calls[c] == Returned then s
      else Moved(FailedRun(s, c, message), c, Returned)
  }

  function RunAll(turns: seq<Turn>): Sessions {
    if turns == [] then Sessions(false, [], [], []) else Step(RunAll(turns[..|turns| - 1]), Last(turns))
  }

  /** The events of a run: while it runs none is terminal, and then exactly the
      last one is, and says how it ended. */
  predicate EventsOk(r: RunRecord) {
    match r.status
    case RunRunning => forall e | e in r.events :: !Terminal(e)
    case RunSucceeded => EndsWith(r.events, DoneEvent(r.commit, r.summary))
    case RunFailed => EndsWith(r.events, ErrorEvent(r.error))
  }

  predicate EndsWith(events: seq<Event>, e: Event) {
    && events != [] && Last(events) == e
    && forall i | 0 <= i < |events| - 1 :: !Terminal(events[i])
  }

  predicate Newest(runs: seq<nat>, n: nat) {
    && |runs| == (if n > KEEP_RUNS then KEEP_RUNS else n)
    && forall k | 0 <= k < |runs| :: runs[k] == n - 1 - k
  }

  /** A session is busy exactly while its newest run, and no other, is running;
      that is the run of the one call that has not returned. */
  predicate Inv(s: Sessions) {
    && |s.calls| == |s.records|
    && Newest(s.runs, |s.records|)
    && (s.busy ==> s.records != [])
    && (forall i | 0 <= i < |s.records| ::
          && (s.records[i].status == RunRunning <==> s.busy && i == |s.records| - 1)
          && (s.calls[i] != Returned <==> s.busy && i == |s.records| - 1)
          && EventsOk(s.records[i]))
  }

  lemma StepKeepsInv(s: Sessions, t: Turn)
    requires Inv(s)
    ensures Inv(Step(s, t))
  {
    match t {
      case NewCall(prompt) =>
        if !s.busy {
          StartKeepsInv(s, prompt);
        }
      case AgentEmits(c, text) =>
        if c < |s.calls| && s.calls[c] == Working {
          ChangeKeepsInv(s, Step(s, t), c);
        }
      case Resolves(c, _, _) =>
        if c < |s.calls| && s.calls[c] != Returned {
          ChangeKeepsInv(s, Step(s, t), c);
        }
      case Rejects(c, _) =>
        if c < |s.calls| && s.calls[c] != Returned {
          ChangeKeepsInv(s, Step(s, t), c);
        }
    }
  }

  lemma StartKeepsInv(s: Sessions, prompt: string)
    requires Inv(s) && !s.busy
    ensures Inv(Started(s, prompt))
  {
  }

  /** Only the call that has not returned changes anything: its own run. */
  lemma ChangeKeepsInv(s: Sessions, u: Sessions, c: nat)
    requires Inv(s) && s.busy && c == |s.records| - 1
    requires u.runs == s.runs && |u.records| == |s.records| && |u.calls| == |s.calls|
    requires forall i | 0 <= i < c :: u.records[i] == s.records[i] && u.calls[i] == s.calls[i]
    requires EventsOk(u.records[c])
    requires u.busy <==> u.records[c].status == RunRunning
    requires u.busy <==> u.calls[c] != Returned
    ensures Inv(u)
  {
  }

  lemma {:induction false} AllRunsOk(turns: seq<Turn>)
    ensures Inv(RunAll(turns))
  {
    if turns != [] {
      AllRunsOk(turns[..|turns| - 1]);
      StepKeepsInv(RunAll(turns[..|turns| - 1]), Last(turns));
    }
  }

  /** Single flight: in every interleaving the session is busy exactly if one
      run is running, and that is the first of the list. */
  lemma SingleFlight(turns: seq<Turn>)
    ensures
      var s := RunAll(turns);
      && (s.busy <==> exists i: nat :: i < |s.records| && s.records[i].status == RunRunning)
      && (forall i, j | 0 <= i < |s.records| && 0 <= j < |s.records| ::
            s.records[i].status == RunRunning && s.records[j].status == RunRunning ==> i == j)
      && (s.busy ==> s.runs != [] && s.runs[0] < |s.records| && s.records[s.runs[0]].status == RunRunning)
  {
    AllRunsOk(turns);
    var s := RunAll(turns);
    if s.busy {
      assert s.records[|s.records| - 1].status == RunRunning;
    }
  }

  /** The list keeps the newest runs, newest first, and at most fifty. */
  lemma {:induction false} HistoryIsNewestFirst(turns: seq<Turn>)
    ensures
      var s := RunAll(turns);
      && |s.runs| == (if |s.records| > 50 then 50 else |s.records|)
      && forall k | 0 <= k < |s.runs| :: s.runs[k] == |s.records| - 1 - k
  {
    AllRunsOk(turns);
  }

  /** A run that is over has emitted exactly one done or error event, as its
      last; one that is not has emitted none. */
  lemma OneTerminalEvent(turns: seq<Turn>, run: nat)
    requires run < |RunAll(turns).records|
    ensures
      var r := RunAll(turns).records[run];
      && (r.status == RunRunning <==> forall e | e in r.events :: !Terminal(e))
      && (forall i | 0 <= i < |r.events| && Terminal(r.events[i]) :: i == |r.events| - 1)
      && (r.status == RunSucceeded <==> r.events != [] && Last(r.events) == DoneEvent(r.commit, r.summary))
      && (r.status == RunFailed <==> r.events != [] && Last(r.events) == ErrorEvent(r.error))
  {
    AllRunsOk(turns);
    TerminalIsLast(RunAll(turns).records[run]);
  }

  lemma TerminalIsLast(r: RunRecord)
    requires EventsOk(r)
    ensures r.status == RunRunning <==> forall e | e in r.events :: !Terminal(e)
    ensures forall i | 0 <= i < |r.events| && Terminal(r.events[i]) :: i == |r.events| - 1
    ensures r.status == RunSucceeded <==> r.events != [] && Last(r.events) == DoneEvent(r.commit, r.summary)
    ensures r.status == RunFailed <==> r.events != [] && Last(r.events) == ErrorEvent(r.error)
  {
    if r.events != [] {
      assert Last(r.events) in r.events;
    }
  }

  lemma StepLeavesOver(s: Sessions, t: Turn, run: nat)
    requires Inv(s) && run < |s.records| && s.records[run].status != RunRunning
    ensures run < |Step(s, t).records| && Step(s, t).records[run] == s.records[run]
  {
  }

  predicate Unchanged(s: Sessions, u: Sessions) {
    |s.records| <= |u.records| &&
    forall run | 0 <= run < |s.records| && s.records[run].status != RunRunning :: u.records[run] == s.records[run]
  }

  lemma NextLeavesOver(turns: seq<Turn>, t: Turn)
    ensures Unchanged(RunAll(turns), RunAll(turns + [t]))
  {
    var s := RunAll(turns);
    AllRunsOk(turns);
    assert (turns + [t])[..|turns|] == turns;
    forall run: nat | run < |s.records| && s.records[run].status != RunRunning
      ensures run < |Step(s, t).records| && Step(s, t).records[run] == s.records[run]
    {
      StepLeavesOver(s, t, run);
    }
    StepAddsRecords(s, t);
  }

  lemma StepAddsRecords(s: Sessions, t: Turn)
    ensures |s.records| <= |Step(s, t).records|
  {
  }

  /** Whatever happens meanwhile, a run that is over does not change. */
  lemma {:induction false} OverIsOver(turns: seq<Turn>, more: seq<Turn>)
    ensures Unchanged(RunAll(turns), RunAll(turns + more))
  {
    if more == [] {
      assert turns + more == turns;
    } else {
      var n := |more| - 1;
      OverIsOver(turns, more[..n]);
      NextLeavesOver(turns + more[..n], more[n]);
      assert turns + more == turns + more[..n] + [more[n]];
    }
  }

  // -------------------------------------------------------------- the program

  class Session {
    var busy: bool
    var runs: seq<nat>
    var records: seq<RunRecord>

    constructor ()
      ensures !busy && runs == [] && records == []
    {
      busy, runs, records := false, [], [];
    }

    function Value(calls: seq<Place>): Sessions
      reads this
    {
      Sessions(busy, runs, records, calls)
    }

    /** emit; it never throws. */
    method Emit(run: nat, e: Event)
      requires run < |records|
      modifies this`records
      ensures records == old(records)[run := old(records)[run].(events := old(records)[run].events + [e])]
    {
      records := records[run := records[run].(events := records[run].events + [e])];
    }

    /** run, up to its first await; None is the BusyError. */
    method Begin(prompt: string, ghost calls: seq<Place>) returns (run: Option<nat>)
      modifies this
      ensures run.None? <==> old(busy)
      ensures run.None? ==> Value(calls) == old(Value(calls))
      ensures run.Some? ==>
                run.value == |old(records)| && Value(calls + [Preparing]) == Started(old(Value(calls)), prompt)
    {
      if busy {
        return None;
      }
      busy := true;
      var id := |records|;
      records := records + [RunRecord(prompt, RunRunning, "", "", "", [])];
      runs := [id] + runs;
      if |runs| > KEEP_RUNS {
        runs := runs[..KEEP_RUNS];
      }
      Emit(id, Progress("Syncing the repository"));
      assert records[id].events == [Progress("Syncing the repository")];
      assert records == old(records) + [records[id]];
      run := Some(id);
    }

    /** run, from the end of the push: the record, the event, and finally. */
    method Succeed(run: nat, commit: string, summary: string, ghost calls: seq<Place>)
      requires run < |records|
      modifies this
      ensures Value(calls) == Succeeded(old(Value(calls)), run, commit, summary)
    {
      var r := records[run].(commit := commit);
      r := r.(summary := summary);
      r := r.(status := RunSucceeded);
      records := records[run := r];
      Emit(run, DoneEvent(commit, summary));
      assert records == old(records)[run := records[run]];
      busy := false;
    }

    /** run, from a rejected await: the catch, and finally. */
    method Catch(run: nat, message: string, ghost calls: seq<Place>)
      requires run < |records|
      modifies this
      ensures Value(calls) == FailedRun(old(Value(calls)), run, message)
    {
      var r := records[run].(status := RunFailed);
      r := r.(error := message);
      records := records[run := r];
      Emit(run, ErrorEvent(message));
      assert records == old(records)[run := records[run]];
      busy := false;
    }
  }

  /** The event loop: any calls, resumed in any order with any outcome. The
      session goes through a run of the step system. */
  method EventLoop(session: Session, turns: seq<Turn>) returns (calls: seq<Place>)
    requires session.Value([]) == RunAll([])
    modifies session
    ensures session.Value(calls) == RunAll(turns)
  {
    calls := [];
    for i := 0 to |turns|
      invariant session.Value(calls) == RunAll(turns[..i])
    {
      assert turns[..i + 1][..i] == turns[..i];
      AllRunsOk(turns[..i]);
      calls := TakeTurn(session, calls, turns[i]);
    }
    assert turns[..|turns|] == turns;
  }

  method TakeTurn(session: Session, before: seq<Place>, t: Turn) returns (calls: seq<Place>)
    requires |before| == |session.records|
    modifies session
    ensures session.Value(calls) == Step(old(session.Value(before)), t)
  {
    calls := before;
    match t {
      case NewCall(prompt) =>
        var run := session.Begin(prompt, calls);
        if run.Some? {
          calls := calls + [Preparing];
        }
      case AgentEmits(c, text) =>
        if c < |calls| && calls[c] == Working {
          session.Emit(c, Progress(text));
        }
      case Rejects(c, message) =>
        if c < |calls| && calls[c] != Returned {
          session.Catch(c, message, calls);
          calls := calls[c := Returned];
        }
      case Resolves(c, commit, summary) =>
        if c < |calls| {
          calls := Resume(session, calls, c, commit, summary);
        }
    }
  }

  /** run, from one await to the next. */
  method Resume(session: Session, before: seq<Place>, c: nat, commit: string, summary: string)
    returns (calls: seq<Place>)
    requires c < |before| == |session.records|
    modifies session
    ensures session.Value(calls) == Step(old(session.Value(before)), Resolves(c, commit, summary))
  {
    calls := before;
    match calls[c] {
      case Preparing =>
        calls := calls[c := Resolving];
      case Resolving =>
        calls := calls[c := Listing];
      case Listing =>
        session.Emit(c, Progress("Working"));
        calls := calls[c := Working];
      case Working =>
        session.Emit(c, Progress("Committing and pushing"));
        calls := calls[c := Pushing];
      case Pushing =>
        session.Succeed(c, commit, summary, calls);
        calls := calls[c := Returned];
      case Returned =>
    }
  }
}
