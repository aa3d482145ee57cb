/** The operator: the three reconcilers, run as programs in any order and under
    any interference. */
module Operator {
  import opened Common
  import opened Objects
  import opened System
  import opened Histories
  import opened BuildSafety
  import opened DeploySafety
  import opened Effects
  import opened Api
  import CIReconciler
  import ServiceReconciler
  import CDReconciler

  /** Whatever the server has been through, every object in it is sound. */
  lemma ServerIsSafe(api: Server)
    requires api.Valid()
    ensures BuildInv(api.sys) && DeployInv(api.sys)
  {
    api.Reached();
    RunBuildInv(api.cfg, api.trace);
    RunDeployInv(api.cfg, api.trace);
  }

  /** A pass to run, with what the cache answers; or to let the others act. */
  datatype Order = RunCI(view: CIView) | RunService(svcView: SvcView) | RunCD(allowed: bool) | Wait

  function RunnerOf(o: Order): Actor {
    match o
    case RunCI(_) => CIActor
    case RunService(_) => SvcActor
    case RunCD(_) => CDActor
    case Wait => EnvActor
  }

  predicate Ready(s: State, o: Order) {
    match o
    case RunCI(view) => s.ci.CIRest? && CIViewPossible(s.store, view)
    case RunService(view) => s.svc.SvcRest? && view.copy < |s.store.svcs|
    case RunCD(_) => s.cd.CDRest? && s.store.cds != []
    case Wait => false
  }

  // ---------------------------------------------------------- what happened

  /** The server at some time: its state, what the three actors had done, the
      calls they had made and the steps that everyone had taken. */
  datatype Moment = Moment(sys: State, ci: seq<Effect>, svc: seq<Effect>, cd: seq<Effect>, calls: nat, time: nat)

  ghost function Now(api: Server): Moment
    reads api
  {
    Moment(api.sys, api.ciDone, api.svcDone, api.cdDone, api.calls, |api.trace|)
  }

  function Log(m: Moment, me: Actor): seq<Effect> {
    LogOf(me, m.ci, m.svc, m.cd)
  }

  /** The execution went through this moment: there it had this state, and the
      actors had done just that. */
  ghost predicate Happened(cfg: Config, states: seq<State>, trace: seq<Action>, m: Moment) {
    && m.time <= |trace| < |states|
    && m.sys == states[m.time]
    && m.ci == Own(cfg, states, trace[..m.time], CIActor)
    && m.svc == Own(cfg, states, trace[..m.time], SvcActor)
    && m.cd == Own(cfg, states, trace[..m.time], CDActor)
  }

  lemma {:induction false} OwnOfPrefix(cfg: Config, states: seq<State>, more: seq<State>, trace: seq<Action>, me: Actor)
    requires |trace| < |states| && states <= more
    ensures Own(cfg, states, trace, me) == Own(cfg, more, trace, me)
  {
    if trace != [] {
      OwnOfPrefix(cfg, states, more, trace[..|trace| - 1], me);
    }
  }

  lemma StillHappened(cfg: Config, states: seq<State>, trace: seq<Action>, more: seq<State>, longer: seq<Action>,
                      m: Moment)
    requires Happened(cfg, states, trace, m) && states <= more && trace <= longer && |longer| < |more|
    ensures Happened(cfg, more, longer, m)
  {
    assert trace[..m.time] == longer[..m.time];
    OwnOfPrefix(cfg, states, more, trace[..m.time], CIActor);
    OwnOfPrefix(cfg, states, more, trace[..m.time], SvcActor);
    OwnOfPrefix(cfg, states, more, trace[..m.time], CDActor);
  }

  lemma NowHappened(api: Server)
    requires api.Valid()
    ensures Happened(api.cfg, api.states, api.trace, Now(api))
  {
    assert api.trace[..|api.trace|] == api.trace;
  }

  /** What became of an order: between which moments it was carried out,
      whether a pass took place, what it did and how it ended. */
  datatype Report = Report(before: Moment, after: Moment, ran: bool, acts: seq<Effect>, answer: Answer)

  /** All that the log of an actor shows of its pass. */
  function Noted(o: Order, r: Report): seq<Effect>
    requires Ready(r.before.sys, o)
  {
    [match o
     case RunCI(view) => BeganCI(view)
     case RunService(view) => BeganService(view)
     case RunCD(_) => BeganCD(Last(r.before.sys.store.cds))]
    + r.acts + (if r.answer.Lost? then [GaveUp] else [])
  }

  /** Time goes on, and nothing that was done is undone. */
  predicate GoesOn(a: Moment, b: Moment) {
    && a.time <= b.time && a.calls <= b.calls
    && a.ci <= b.ci && a.svc <= b.svc && a.cd <= b.cd
    && Later(a.sys.store, b.sys.store)
  }

  /** The pass did what a pass does that decides as this one and meets these
      replies. */
  predicate DidItsPass(cfg: Config, replies: Replies, o: Order, r: Report)
    requires Ready(r.before.sys, o)
  {
    var was, st, k := r.before.sys.store, r.after.sys.store, r.before.calls;
    match o
    case RunCI(view) => CIPassDid(replies, k, st, DecideCI(cfg, was, view), r.acts, r.answer)
    case RunService(view) =>
      ServicePassDid(cfg, replies, k, was, st, DecideService(cfg, was, view), r.acts, r.answer)
    case RunCD(allowed) => CDPassDid(replies, k, was, st, Last(was.cds), allowed, r.acts, r.answer)
  }

  /** A pass takes place exactly if it can begin. Then its actor's log gains
      just this pass, which did what it had to, gave up if and only if a call
      of its own was lost, and is over. */
  predicate Carried(cfg: Config, replies: Replies, o: Order, r: Report) {
    && GoesOn(r.before, r.after)
    && r.ran == Ready(r.before.sys, o)
    && if r.ran then
         && DidItsPass(cfg, replies, o, r)
         && Log(r.after, RunnerOf(o)) == Log(r.before, RunnerOf(o)) + Noted(o, r)
         && LostOf(replies, r.after.calls) == LostOf(replies, r.before.calls) + (if r.answer.Lost? then 1 else 0)
         && RestsAt(r.after.sys, RunnerOf(o))
       else r.after.calls == r.before.calls && (r.after == r.before || o.Wait?)
  }

  lemma TraceExtends(cfg: Config, a: seq<Action>, b: seq<Action>)
    requires a <= b
    ensures Extends(Run(cfg, Initial(), a).store, Run(cfg, Initial(), b).store)
  {
    assert b == a + b[|a|..];
    RunJoins(cfg, Initial(), a, b[|a|..]);
    RunExtends(cfg, Run(cfg, Initial(), a), b[|a|..]);
  }

  /** Everything that was done is in the store. */
  ghost predicate AllHold(cfg: Config, st: Store, acts: seq<Effect>) {
    forall e | e in acts :: Holds(cfg, st, e)
  }

  lemma StillHold(cfg: Config, a: Store, b: Store, acts: seq<Effect>)
    requires Extends(a, b) && AllHold(cfg, a, acts)
    ensures AllHold(cfg, b, acts)
  {
    forall e | e in acts
      ensures Holds(cfg, b, e)
    {
      HoldsExtends(cfg, a, b, e);
    }
  }

  // ------------------------------------------------------------- one order

  method CarryOutCI(api: Server, view: CIView) returns (ghost r: Report)
    requires api.Valid() && Ready(api.sys, RunCI(view))
    modifies api
    ensures api.Valid() && old(api.trace) <= api.trace && old(api.states) <= api.states
    ensures Carried(api.cfg, api.replies, RunCI(view), r) && AllHold(api.cfg, api.sys.store, r.acts)
    ensures r.ran && r.before == old(Now(api)) && r.after == Now(api)
  {
    ghost var acts;
    var answer: Answer;
    answer, acts := CIReconciler.Reconcile(api, view);
    r := Report(old(Now(api)), Now(api), true, acts, answer);
    api.DoneHolds();
    assert forall e | e in acts :: e in api.ciDone;
  }

  method CarryOutService(api: Server, view: SvcView) returns (ghost r: Report)
    requires api.Valid() && Ready(api.sys, RunService(view))
    modifies api
    ensures api.Valid() && old(api.trace) <= api.trace && old(api.states) <= api.states
    ensures Carried(api.cfg, api.replies, RunService(view), r) && AllHold(api.cfg, api.sys.store, r.acts)
    ensures r.ran && r.before == old(Now(api)) && r.after == Now(api)
  {
    ghost var acts;
    var answer: Answer;
    answer, acts := ServiceReconciler.Reconcile(api, view);
    r := Report(old(Now(api)), Now(api), true, acts, answer);
    api.DoneHolds();
    assert forall e | e in acts :: e in api.svcDone;
  }

  method CarryOutCD(api: Server, allowed: bool) returns (ghost r: Report)
    requires api.Valid() && Ready(api.sys, RunCD(allowed))
    modifies api
    ensures api.Valid() && old(api.trace) <= api.trace && old(api.states) <= api.states
    ensures Carried(api.cfg, api.replies, RunCD(allowed), r) && AllHold(api.cfg, api.sys.store, r.acts)
    ensures r.ran && r.before == old(Now(api)) && r.after == Now(api)
  {
    ghost var acts;
    var answer: Answer;
    answer, acts := CDReconciler.Reconcile(api, allowed);
    r := Report(old(Now(api)), Now(api), true, acts, answer);
    api.DoneHolds();
    assert forall e | e in acts :: e in api.cdDone;
  }

  /** One order: the pass, if it is ready to begin. */
  method CarryOut(api: Server, o: Order) returns (ran: bool, ghost r: Report)
    requires api.Valid()
    modifies api
    ensures api.Valid() && old(api.trace) <= api.trace && old(api.states) <= api.states
    ensures Carried(api.cfg, api.replies, o, r) && AllHold(api.cfg, api.sys.store, r.acts)
    ensures r.ran == ran && r.before == old(Now(api)) && r.after == Now(api)
  {
    ran := Ready(api.sys, o);
    if ran {
      match o {
        case RunCI(view) => r := CarryOutCI(api, view);
        case RunService(view) => r := CarryOutService(api, view);
        case RunCD(allowed) => r := CarryOutCD(api, allowed);
      }
      return;
    }
    if o.Wait? {
      api.Others(EnvActor);
    }
    r := Report(old(Now(api)), Now(api), false, [], Done);
  }

  // ---------------------------------------------------------------- a script

  /** Where the i-th order was met: where the one before it left off. */
  function LeftOff(start: Moment, reports: seq<Report>, i: nat): Moment
    requires i <= |reports|
  {
    if i == 0 then start else reports[i - 1].after
  }

  /** Each order was carried out from where the one before it left off. */
  predicate Chained(cfg: Config, replies: Replies, start: Moment, now: Moment, script: seq<Order>,
                    reports: seq<Report>) {
    && |reports| == |script|
    && (forall i {:trigger Carried(cfg, replies, script[i], reports[i])} | 0 <= i < |script| ::
          Carried(cfg, replies, script[i], reports[i]))
    && (forall i {:trigger LeftOff(start, reports, i)} | 0 <= i < |script| ::
          reports[i].before == LeftOff(start, reports, i))
    && now == LeftOff(start, reports, |script|)
  }

  /** The moments of the reports are moments of the execution, and all that the
      passes did is in the store. */
  ghost predicate Real(cfg: Config, states: seq<State>, trace: seq<Action>, st: Store, reports: seq<Report>) {
    && (forall r {:trigger Happened(cfg, states, trace, r.after)} | r in reports ::
          Happened(cfg, states, trace, r.after))
    && (forall r {:trigger AllHold(cfg, st, r.acts)} | r in reports :: AllHold(cfg, st, r.acts))
  }

  lemma OneMoreReport(cfg: Config, replies: Replies, start: Moment, now: Moment, script: seq<Order>, o: Order,
                      reports: seq<Report>, r: Report)
    requires Chained(cfg, replies, start, now, script, reports)
    requires Carried(cfg, replies, o, r) && r.before == now
    ensures Chained(cfg, replies, start, r.after, script + [o], reports + [r])
  {
    var longer, more := script + [o], reports + [r];
    forall i | 0 <= i < |longer|
      ensures Carried(cfg, replies, longer[i], more[i]) && more[i].before == LeftOff(start, more, i)
    {
      if i < |script| {
        assert Carried(cfg, replies, script[i], reports[i]);
        assert reports[i].before == LeftOff(start, reports, i);
      }
    }
  }

  lemma StillReal(cfg: Config, states: seq<State>, trace: seq<Action>, more: seq<State>, longer: seq<Action>,
                  a: Store, b: Store, reports: seq<Report>, r: Report)
    requires Real(cfg, states, trace, a, reports) && Extends(a, b)
    requires states <= more && trace <= longer && |longer| < |more|
    requires Happened(cfg, more, longer, r.after) && AllHold(cfg, b, r.acts)
    ensures Real(cfg, more, longer, b, reports + [r])
  {
    forall q | q in reports + [r]
      ensures Happened(cfg, more, longer, q.after) && AllHold(cfg, b, q.acts)
    {
      if q in reports {
        assert Happened(cfg, states, trace, q.after) && AllHold(cfg, a, q.acts);
        StillHappened(cfg, states, trace, more, longer, q.after);
        StillHold(cfg, a, b, q.acts);
      }
    }
  }

  /** Which orders were passes that took place. */
  predicate Told(ran: seq<bool>, reports: seq<Report>) {
    |ran| == |reports| && forall i | 0 <= i < |ran| :: ran[i] == reports[i].ran
  }

  /** The next order of a script. */
  method Next(api: Server, ghost start: Moment, o: Order, ghost script: seq<Order>, sofar: seq<bool>,
              ghost reports: seq<Report>)
    returns (ran: seq<bool>, ghost more: seq<Report>)
    requires api.Valid() && Chained(api.cfg, api.replies, start, Now(api), script, reports)
    requires Real(api.cfg, api.states, api.trace, api.sys.store, reports) && Told(sofar, reports)
    modifies api
    ensures api.Valid() && Chained(api.cfg, api.replies, start, Now(api), script + [o], more)
    ensures Real(api.cfg, api.states, api.trace, api.sys.store, more) && Told(ran, more)
    ensures old(api.trace) <= api.trace && old(api.states) <= api.states
  {
    ghost var trace, states, now := api.trace, api.states, Now(api);
    api.Reached();
    var ok: bool;
    ghost var r;
    ok, r := CarryOut(api, o);
    api.Reached();
    TraceExtends(api.cfg, trace, api.trace);
    NowHappened(api);
    OneMoreReport(api.cfg, api.replies, start, now, script, o, reports, r);
    StillReal(api.cfg, states, trace, api.states, api.trace, now.sys.store, api.sys.store, reports, r);
    ran, more := sofar + [ok], reports + [r];
  }

  lemma NoReports(cfg: Config, replies: Replies, start: Moment, states: seq<State>, trace: seq<Action>)
    ensures Chained(cfg, replies, start, start, [], []) && Real(cfg, states, trace, start.sys.store, [])
  {
  }

  /** The passes of a script, one after the other. */
  method RunScript(api: Server, script: seq<Order>) returns (ran: seq<bool>, ghost reports: seq<Report>)
    requires api.Valid()
    modifies api
    ensures api.Valid()
    ensures Chained(api.cfg, api.replies, old(Now(api)), Now(api), script, reports)
    ensures Real(api.cfg, api.states, api.trace, api.sys.store, reports) && Told(ran, reports)
    ensures old(api.trace) <= api.trace && old(api.states) <= api.states
  {
    ghost var start, trace, states := Now(api), api.trace, api.states;
    ran, reports := [], [];
    NoReports(api.cfg, api.replies, start, states, trace);
    ghost var done: seq<Order> := [];
    for i := 0 to |script|
      invariant api.Valid() && done == script[..i]
      invariant Chained(api.cfg, api.replies, start, Now(api), done, reports)
      invariant Real(api.cfg, api.states, api.trace, api.sys.store, reports) && Told(ran, reports)
      invariant trace <= api.trace && states <= api.states
    {
      ran, reports := Next(api, start, script[i], done, ran, reports);
      done := done + [script[i]];
    }
    assert done == script;
  }

  /** A script of passes, whatever happens within and between them: exactly the
      passes that can begin take place, each adds to its actor's log just what
      a pass does that decides as it and meets its replies, gives up only for
      a lost call, and what it did stays in the store; every object stays
      sound. The reports are of this execution: they start where the server
      was, end where it is, and each moment between lies in its trace. */
  method Operate(api: Server, script: seq<Order>) returns (ran: seq<bool>, ghost reports: seq<Report>)
    requires api.Valid()
    modifies api
    ensures api.Valid() && BuildInv(api.sys) && DeployInv(api.sys)
    ensures Chained(api.cfg, api.replies, old(Now(api)), Now(api), script, reports)
    ensures Real(api.cfg, api.states, api.trace, api.sys.store, reports) && Told(ran, reports)
    ensures old(api.trace) <= api.trace && old(api.states) <= api.states
  {
    ran, reports := RunScript(api, script);
    ServerIsSafe(api);
  }

  // ------------------------------------------------------- what this says

  lemma {:induction false} ChainGoesOn(cfg: Config, replies: Replies, start: Moment, now: Moment, script: seq<Order>,
                                       reports: seq<Report>, i: nat)
    requires Chained(cfg, replies, start, now, script, reports) && i < |script|
    ensures GoesOn(start, reports[i].before) && GoesOn(reports[i].after, now)
  {
    UpTo(cfg, replies, start, now, script, reports, i);
    From(cfg, replies, start, now, script, reports, i);
  }

  lemma {:induction false} UpTo(cfg: Config, replies: Replies, start: Moment, now: Moment, script: seq<Order>,
                                reports: seq<Report>, i: nat)
    requires Chained(cfg, replies, start, now, script, reports) && i < |script|
    ensures GoesOn(start, reports[i].before)
  {
    assert reports[i].before == LeftOff(start, reports, i);
    if i > 0 {
      UpTo(cfg, replies, start, now, script, reports, i - 1);
      assert Carried(cfg, replies, script[i - 1], reports[i - 1]);
    }
  }

  lemma {:induction false} From(cfg: Config, replies: Replies, start: Moment, now: Moment, script: seq<Order>,
                                reports: seq<Report>, i: nat)
    requires Chained(cfg, replies, start, now, script, reports) && i < |script|
    ensures GoesOn(reports[i].after, now)
    decreases |script| - i
  {
    assert LeftOff(start, reports, i + 1) == reports[i].after;
    if i + 1 < |script| {
      From(cfg, replies, start, now, script, reports, i + 1);
      assert Carried(cfg, replies, script[i + 1], reports[i + 1]);
    }
  }

  /** Each pass of a script is in the final log of its actor, as a whole, after
      all that was there when the script began and after the passes before. */
  lemma PassIsInTheLog(cfg: Config, replies: Replies, start: Moment, now: Moment, script: seq<Order>,
                       reports: seq<Report>, i: nat)
    requires Chained(cfg, replies, start, now, script, reports) && i < |script|
    requires Ready(reports[i].before.sys, script[i])
    ensures
      var r, me := reports[i], RunnerOf(script[i]);
      var at, noted := |Log(r.before, me)|, Noted(script[i], r);
      && |Log(start, me)| <= at
      && at + |noted| <= |Log(now, me)|
      && Log(now, me)[at..at + |noted|] == noted
  {
    ChainGoesOn(cfg, replies, start, now, script, reports, i);
    assert Carried(cfg, replies, script[i], reports[i]);
    var r, me := reports[i], RunnerOf(script[i]);
    var at, noted := |Log(r.before, me)|, Noted(script[i], r);
    assert Log(r.after, me) <= Log(now, me);
    assert Log(now, me)[..at + |noted|] == Log(r.before, me) + noted;
  }

  /** A pass gave up if and only if one of its own calls was lost. */
  lemma GaveUpIff(cfg: Config, replies: Replies, o: Order, r: Report)
    requires Carried(cfg, replies, o, r) && r.ran
    ensures r.answer.Lost? <==> exists k: nat :: r.before.calls <= k < r.after.calls && replies(k).lost
  {
    LostBetween(replies, r.before.calls, r.after.calls);
  }

  lemma {:induction false} PassesInOrder(cfg: Config, replies: Replies, start: Moment, now: Moment, script: seq<Order>,
                                         reports: seq<Report>, i: nat, j: nat)
    requires Chained(cfg, replies, start, now, script, reports) && i < j < |script|
    ensures GoesOn(reports[i].after, reports[j].before)
    decreases j
  {
    if i + 1 < j {
      PassesInOrder(cfg, replies, start, now, script, reports, i, j - 1);
      assert Carried(cfg, replies, script[j - 1], reports[j - 1]);
    }
    assert reports[j].before == LeftOff(start, reports, j);
  }
}
