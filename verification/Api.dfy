/** The API server as a reconciler meets it: every call may come after any
    number of steps of everyone else, and may fail. */
module Api {
  import opened Common
  import opened Objects
  import opened System
  import opened Histories
  import opened BuildSafety
  import opened Effects

  datatype Actor = EnvActor | CIActor | SvcActor | CDActor

  function ActorOf(a: Action): Actor {
    match a
    case ByEnv(_) => EnvActor
    case ByCI(_) => CIActor
    case BySvc(_) => SvcActor
    case ByCD(_) => CDActor
  }

  predicate SamePlace(s: State, t: State, actor: Actor) {
    && (actor == CIActor ==> t.ci == s.ci)
    && (actor == SvcActor ==> t.svc == s.svc)
    && (actor == CDActor ==> t.cd == s.cd)
  }

  /** Nothing that was read has been rewritten. */
  predicate Later(a: Store, b: Store) {
    a.svcs <= b.svcs && a.cis <= b.cis && a.cds <= b.cds && a.deps <= b.deps
  }

  predicate StepAt(cfg: Config, states: seq<State>, trace: seq<Action>, i: int) {
    0 <= i < |trace| < |states| && states[i + 1] == Step(cfg, states[i], trace[i])
  }

  /** The states that a trace goes through. */
  ghost predicate Execution(cfg: Config, states: seq<State>, trace: seq<Action>) {
    && |states| == |trace| + 1
    && states[0] == Initial()
    && forall i | 0 <= i < |trace| :: StepAt(cfg, states, trace, i)
  }

  /** An execution is a run of the step system. */
  lemma {:induction false} ExecutionRuns(cfg: Config, states: seq<State>, trace: seq<Action>)
    requires Execution(cfg, states, trace)
    ensures Last(states) == Run(cfg, Initial(), trace)
    decreases |trace|
  {
    if trace != [] {
      var n := |trace| - 1;
      var shorter, earlier := states[..n + 1], trace[..n];
      forall i | 0 <= i < n
        ensures StepAt(cfg, shorter, earlier, i)
      {
        assert StepAt(cfg, states, trace, i);
      }
      ExecutionRuns(cfg, shorter, earlier);
      assert StepAt(cfg, states, trace, n);
    }
  }

  lemma ExecutionGrows(cfg: Config, states: seq<State>, trace: seq<Action>, a: Action)
    requires Execution(cfg, states, trace)
    ensures Execution(cfg, states + [Step(cfg, Last(states), a)], trace + [a])
  {
    var more, longer := states + [Step(cfg, Last(states), a)], trace + [a];
    forall i | 0 <= i < |longer|
      ensures StepAt(cfg, more, longer, i)
    {
      if i < |trace| {
        assert StepAt(cfg, states, trace, i);
      }
    }
  }

  /** What an actor did in an execution. */
  function Own(cfg: Config, states: seq<State>, trace: seq<Action>, actor: Actor): seq<Effect>
    requires |trace| < |states|
  {
    if trace == [] then []
    else
      var n := |trace| - 1;
      Own(cfg, states, trace[..n], actor) +
      if ActorOf(trace[n]) == actor then EffectOf(cfg, states[n], trace[n]) else []
  }

  lemma {:induction false} OwnGrows(cfg: Config, states: seq<State>, trace: seq<Action>, more: State, actor: Actor)
    requires |trace| < |states|
    ensures Own(cfg, states + [more], trace, actor) == Own(cfg, states, trace, actor)
  {
    if trace != [] {
      OwnGrows(cfg, states, trace[..|trace| - 1], more, actor);
    }
  }

  lemma OwnTakes(cfg: Config, states: seq<State>, trace: seq<Action>, more: State, a: Action, actor: Actor)
    requires |states| == |trace| + 1
    ensures Own(cfg, states + [more], trace + [a], actor) ==
            Own(cfg, states, trace, actor) +
            if ActorOf(a) == actor then EffectOf(cfg, Last(states), a) else []
  {
    assert (trace + [a])[..|trace|] == trace;
    OwnGrows(cfg, states, trace, more, actor);
  }

  /** What an actor did is in the store: the versions it wrote, the Pods it
      created, the objects it ensured. */
  lemma {:induction false} OwnHolds(cfg: Config, states: seq<State>, trace: seq<Action>, actor: Actor)
    requires Execution(cfg, states, trace)
    ensures forall e | e in Own(cfg, states, trace, actor) :: Holds(cfg, Last(states).store, e)
  {
    if trace != [] {
      var n := |trace| - 1;
      var shorter, earlier := states[..n + 1], trace[..n];
      ExecutionShrinks(cfg, states, trace);
      assert states == shorter + [states[n + 1]] && trace == earlier + [trace[n]];
      OwnTakes(cfg, shorter, earlier, states[n + 1], trace[n], actor);
      OwnHolds(cfg, shorter, earlier, actor);
      ExecutionRuns(cfg, shorter, earlier);
      RunBuildInv(cfg, earlier);
      StepHolds(cfg, Last(shorter), trace[n], Own(cfg, shorter, earlier, actor));
    }
  }

  lemma ExecutionShrinks(cfg: Config, states: seq<State>, trace: seq<Action>)
    requires Execution(cfg, states, trace) && trace != []
    ensures
      var n := |trace| - 1;
      && Execution(cfg, states[..n + 1], trace[..n])
      && states[n + 1] == Step(cfg, states[n], trace[n])
      && Last(states) == states[n + 1] && Last(states[..n + 1]) == states[n]
  {
    var n := |trace| - 1;
    var shorter, earlier := states[..n + 1], trace[..n];
    forall i | 0 <= i < n
      ensures StepAt(cfg, shorter, earlier, i)
    {
      assert StepAt(cfg, states, trace, i);
    }
    assert StepAt(cfg, states, trace, n);
  }

  lemma StepHolds(cfg: Config, s: State, a: Action, done: seq<Effect>)
    requires PlaceOk(s.store, s.ci)
    requires forall e | e in done :: Holds(cfg, s.store, e)
    ensures forall e | e in done :: Holds(cfg, Step(cfg, s, a).store, e)
    ensures forall e | e in EffectOf(cfg, s, a) :: Holds(cfg, Step(cfg, s, a).store, e)
  {
    StepExtends(cfg, s, a);
    EffectHolds(cfg, s, a);
    forall e | e in done
      ensures Holds(cfg, Step(cfg, s, a).store, e)
    {
      HoldsExtends(cfg, s.store, Step(cfg, s, a).store, e);
    }
  }

  function StopOf(me: Actor): Action
    requires me != EnvActor
  {
    match me
    case CIActor => ByCI(CIStop)
    case SvcActor => BySvc(SvcStop)
    case CDActor => ByCD(CDStop)
  }

  predicate RestsAt(s: State, me: Actor) {
    match me
    case EnvActor => true
    case CIActor => s.ci.CIRest?
    case SvcActor => s.svc.SvcRest?
    case CDActor => s.cd.CDRest?
  }

  /** The actor begins no pass and gives none up. */
  predicate Goes(a: Action) {
    match a
    case ByEnv(_) => false
    case ByCI(c) => !c.CIBegin? && !c.CIStop?
    case BySvc(v) => !v.SvcBegin? && !v.SvcStop?
    case ByCD(d) => !d.CDBegin? && !d.CDStop?
  }

  function LogOf(me: Actor, ci: seq<Effect>, svc: seq<Effect>, cd: seq<Effect>): seq<Effect> {
    match me
    case EnvActor => []
    case CIActor => ci
    case SvcActor => svc
    case CDActor => cd
  }

  /** Two calls in a row. */
  lemma Then(before: seq<Effect>, first: seq<Effect>, second: seq<Effect>, stop: seq<Effect>)
    ensures before + first + [] + second + stop == before + (first + second) + stop
  {
  }

  /** How many of the first so many calls are lost. */
  function LostOf(replies: Replies, calls: nat): nat {
    if calls == 0 then 0 else LostOf(replies, calls - 1) + if replies(calls - 1).lost then 1 else 0
  }

  lemma {:induction false} LostBetween(replies: Replies, from: nat, upto: nat)
    requires from <= upto
    ensures LostOf(replies, from) <= LostOf(replies, upto)
    ensures LostOf(replies, from) == LostOf(replies, upto) <==> forall k: nat | from <= k < upto :: !replies(k).lost
  {
    if from < upto {
      LostBetween(replies, from, upto - 1);
      assert replies(upto - 1).lost ==> LostOf(replies, from) < LostOf(replies, upto);
    }
  }

  class Server {
    const cfg: Config
    /** What meets each call of the operator. */
    const replies: Replies
    var sys: State
    var calls: nat
    ghost var losses: nat
    ghost var trace: seq<Action>
    ghost var states: seq<State>
    ghost var ciDone: seq<Effect>
    ghost var svcDone: seq<Effect>
    ghost var cdDone: seq<Effect>

    constructor (cfg: Config, replies: Replies)
      ensures Valid() && this.cfg == cfg && this.replies == replies && trace == [] && sys == Initial()
    {
      this.cfg := cfg;
      this.replies := replies;
      sys := Initial();
      calls := 0;
      losses := 0;
      trace := [];
      states := [Initial()];
      ciDone, svcDone, cdDone := [], [], [];
    }

    /** What an actor has done so far. */
    ghost function Done(me: Actor): seq<Effect>
      reads this
    {
      LogOf(me, ciDone, svcDone, cdDone)
    }

    /** The system is in the last state of an execution of the step system, in
        which the three actors did just what is noted, with so many calls
        lost. */
    ghost predicate Valid()
      reads this
    {
      && Execution(cfg, states, trace) && sys == Last(states)
      && (forall n {:trigger LostOf(replies, n)} | n == calls :: losses == LostOf(replies, n))
      && forall me {:trigger Own(cfg, states, trace, me)} | me != EnvActor ::
           LogOf(me, ciDone, svcDone, cdDone) == Own(cfg, states, trace, me)
    }

    /** What holds of every run holds of the server. */
    lemma Reached()
      requires Valid()
      ensures sys == Run(cfg, Initial(), trace)
    {
      ExecutionRuns(cfg, states, trace);
    }

    /** All that the actors did is in the store. */
    lemma DoneHolds()
      requires Valid()
      ensures forall e | e in ciDone || e in svcDone || e in cdDone :: Holds(cfg, sys.store, e)
    {
      OwnHolds(cfg, states, trace, CIActor);
      OwnHolds(cfg, states, trace, SvcActor);
      OwnHolds(cfg, states, trace, CDActor);
    }

    method Take(a: Action)
      requires Valid()
      modifies this
      ensures Valid()
      ensures sys == Step(cfg, old(sys), a)
      ensures trace == old(trace) + [a] && states == old(states) + [sys]
      ensures calls == old(calls) && losses == old(losses)
      ensures ciDone == old(ciDone) + if a.ByCI? then EffectOf(cfg, old(sys), a) else []
      ensures svcDone == old(svcDone) + if a.BySvc? then EffectOf(cfg, old(sys), a) else []
      ensures cdDone == old(cdDone) + if a.ByCD? then EffectOf(cfg, old(sys), a) else []
      ensures Later(old(sys).store, sys.store)
    {
      ghost var e := EffectOf(cfg, sys, a);
      ghost var next := Step(cfg, sys, a);
      StepExtends(cfg, sys, a);
      ExecutionGrows(cfg, states, trace, a);
      forall me | me != EnvActor
        ensures Own(cfg, states + [next], trace + [a], me) == Done(me) + if ActorOf(a) == me then e else []
      {
        OwnTakes(cfg, states, trace, next, a, me);
      }
      ciDone := ciDone + if a.ByCI? then e else [];
      svcDone := svcDone + if a.BySvc? then e else [];
      cdDone := cdDone + if a.ByCD? then e else [];
      sys := Step(cfg, sys, a);
      trace := trace + [a];
      states := states + [sys];
    }

    /** While others act: the past is kept, and an actor's own place and what
        it has done. */
    twostate predicate Aside(me: Actor)
      reads this
    {
      && Later(old(sys).store, sys.store)
      && old(trace) <= trace && old(states) <= states
      && old(ciDone) <= ciDone && old(svcDone) <= svcDone && old(cdDone) <= cdDone
      && SamePlace(old(sys), sys, me)
      && (me == CIActor ==> ciDone == old(ciDone))
      && (me == SvcActor ==> svcDone == old(svcDone))
      && (me == CDActor ==> cdDone == old(cdDone))
    }

    method TakeAside(me: Actor, a: Action)
      requires Valid() && ActorOf(a) != me
      modifies this
      ensures Valid() && Aside(me) && calls == old(calls) && losses == old(losses)
    {
      Take(a);
    }

    /** Anyone but this actor takes any number of steps. */
    method Others(me: Actor)
      requires Valid()
      modifies this
      ensures Valid() && Aside(me) && calls == old(calls) && losses == old(losses)
    {
      var n: int := *;
      var i := 0;
      while i < n
        invariant Valid() && Aside(me) && calls == old(calls) && losses == old(losses)
      {
        var a: Action := *;
        if ActorOf(a) != me {
          TakeAside(me, a);
        }
        i := i + 1;
      }
    }

    /** An actor makes a call: the others act first, and it may be lost. */
    method Call(me: Actor) returns (r: Reply)
      requires Valid()
      modifies this
      ensures Valid() && Aside(me)
      ensures calls == old(calls) + 1 && r == replies(old(calls))
      ensures losses == old(losses) + if r.lost then 1 else 0
    {
      Others(me);
      r := replies(calls);
      calls := calls + 1;
      losses := losses + if r.lost then 1 else 0;
    }

    /** What a part of a pass keeps, whoever else acted meanwhile: acts is what
        this actor did, and its pass was given up only for a lost call. */
    twostate predicate Kept(me: Actor, lost: bool, acts: seq<Effect>)
      reads this
    {
      && Valid()
      && Later(old(sys).store, sys.store)
      && old(trace) <= trace && old(states) <= states
      && old(calls) <= calls && losses == old(losses) + (if lost then 1 else 0)
      && old(ciDone) <= ciDone && old(svcDone) <= svcDone && old(cdDone) <= cdDone
      && Done(me) == old(Done(me)) + acts + (if lost then [GaveUp] else [])
      && (lost ==> RestsAt(sys, me))
    }

    /** The others act, then the call is made; a pass ends with a lost one. */
    method Turn(me: Actor) returns (r: Reply)
      requires Valid() && me != EnvActor
      modifies this
      ensures Kept(me, r.lost, [])
      ensures calls == old(calls) + 1 && r == replies(old(calls))
      ensures !r.lost ==> SamePlace(old(sys), sys, me)
    {
      r := Call(me);
      if r.lost {
        Take(StopOf(me));
      }
    }

    /** The step of a call. */
    method Move(me: Actor, a: Action)
      requires Valid() && ActorOf(a) == me && Goes(a)
      modifies this
      ensures Kept(me, false, EffectOf(cfg, old(sys), a))
      ensures sys == Step(cfg, old(sys), a)
      ensures calls == old(calls)
    {
      Take(a);
    }
  }
}
