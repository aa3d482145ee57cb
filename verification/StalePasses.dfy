/** What a CI pass can still do whose copy of the CI is not the current one:
    it commits nothing, but it may replace the build Pod or write the CD. */
module StalePasses {
  import opened Common
  import opened Objects
  import opened System
  import opened Histories
  import opened BuildSafety
  import opened Effects

  /** The writes that CI passes make along a run. */
  function CIWrites(cfg: Config, s: State, trace: seq<Action>): seq<Effect> {
    if trace == [] then []
    else
      var before, a := trace[..|trace| - 1], Last(trace);
      CIWrites(cfg, s, before) + if a.ByCI? then WriteOf(cfg, Run(cfg, s, before), a.ci) else []
  }

  function WriteOf(cfg: Config, s: State, a: CIAction): seq<Effect> {
    if a.CIBegin? || a.CIStop? then [] else CIEffect(cfg, s, a)
  }

  /** The writes are all that a CI step does to the store. */
  lemma WritesAreAll(cfg: Config, s: State, a: CIAction)
    requires s.ci.CIPatching? ==> s.ci.copy < |s.store.cis|
    ensures
      var st, t, done := s.store, CIStep(cfg, s, a).store, WriteOf(cfg, s, a);
      if done == [] then t == st
      else
        |done| == 1 &&
        match done[0]
        case MarkedPods(_) => t == st.(pods := DeleteAllPods(st.pods))
        case CreatedPod(i, j, _) =>
          i < |st.cis| && j < |st.svcs| &&
          t == st.(pods := st.pods + [BuildPod(st.cis[i].spec, st.svcs[j].spec)])
        case WroteCI(i, w) =>
          i < |st.cis| && PatchCI(st.cis, i, Apply(w, st.cis[i])).Some? &&
          t == st.(cis := PatchCI(st.cis, i, Apply(w, st.cis[i])).value)
        case EnsuredCD(_, _) => t == st.(cds := t.cds) && st.cds <= t.cds
        case _ => false
  {
  }

  function CopyIn(p: CIPlace): Option<nat> {
    match p
    case CIRest => None
    case CIDeleting(i, _, _) => Some(i)
    case CICreating(i, _) => Some(i)
    case CIConfirming(i, _) => Some(i)
    case CIComparing(i) => Some(i)
    case CIPatching(i, _, _) => Some(i)
    case CIEnsuring(i, _) => Some(i)
  }

  /** The pass has a copy, and the CI has a later version. */
  predicate Stale(s: State) {
    CopyIn(s.ci).Some? && CopyIn(s.ci).value + 1 < |s.store.cis|
  }

  /** What a stale pass may have written that started from this place: old Pods
      marked and one new Pod, from where a build starts; the CD, from where a
      success is followed up; else nothing, and never the CI. */
  predicate StaleDid(p: CIPlace, acts: seq<Effect>) {
    match p
    case CIDeleting(i, _, allowed) =>
      |acts| > 0 ==>
        acts[0].MarkedPods? && (|acts| > 1 ==> allowed && |acts| == 2 && acts[1].CreatedPod? && acts[1].copy == i)
    case CICreating(i, _) => |acts| > 0 ==> |acts| == 1 && acts[0].CreatedPod? && acts[0].copy == i
    case CIEnsuring(i, j) => acts == [] || acts == [EnsuredCD(i, j)]
    case _ => acts == []
  }

  /** Where such a pass then stands. */
  predicate StandsAt(from: CIPlace, p: CIPlace, acts: seq<Effect>) {
    StaleDid(from, acts) && (p.CIRest? || (CopyIn(p) == CopyIn(from) && Onward(from, p, acts)))
  }

  predicate Onward(from: CIPlace, p: CIPlace, acts: seq<Effect>) {
    match p
    case CICreating(_, _) =>
      (p == from && acts == []) || (from.CIDeleting? && from.allowed && |acts| == 1)
    case CIComparing(_) => true
    case CIPatching(_, _, _) => true
    case _ => p == from && acts == []
  }

  lemma StaleStep(cfg: Config, s: State, a: CIAction, from: CIPlace, acts: seq<Effect>)
    requires StandsAt(from, s.ci, acts) && CopyIn(from).Some? && CopyIn(from).value + 1 < |s.store.cis|
    requires !a.CIBegin?
    ensures StandsAt(from, CIStep(cfg, s, a).ci, acts + WriteOf(cfg, s, a))
    ensures CIStep(cfg, s, a).store.cis == s.store.cis
  {
    assert acts + [] == acts;
  }

  /** A pass whose copy is not current adds no CI version, whatever it and
      everyone else do until the next pass begins; and these are all the writes
      that it can still make. */
  lemma {:induction false} StalePass(cfg: Config, s: State, trace: seq<Action>)
    requires Stale(s) && forall a | a in trace :: !(a.ByCI? && a.ci.CIBegin?)
    ensures StandsAt(s.ci, Run(cfg, s, trace).ci, CIWrites(cfg, s, trace))
    ensures |s.store.cis| <= |Run(cfg, s, trace).store.cis|
    ensures forall e | e in CIWrites(cfg, s, trace) :: !e.WroteCI?
  {
    if trace != [] {
      var before, a := trace[..|trace| - 1], Last(trace);
      var t := Run(cfg, s, before);
      StalePass(cfg, s, before);
      StepExtends(cfg, t, a);
      assert a in trace;
      if a.ByCI? {
        StaleStep(cfg, t, a.ci, s.ci, CIWrites(cfg, s, before));
      } else {
        OthersLeaveThePass(cfg, t, a);
        assert CIWrites(cfg, s, before) + [] == CIWrites(cfg, s, before);
      }
    }
  }

  lemma OthersLeaveThePass(cfg: Config, s: State, a: Action)
    requires !a.ByCI?
    ensures Step(cfg, s, a).ci == s.ci
  {
  }

  /** The step of a stale pass, in any run, leaves the versions of the CI. */
  lemma StalePassAddsNoVersion(cfg: Config, s: State, trace: seq<Action>, a: CIAction)
    requires Stale(s) && (forall b | b in trace :: !(b.ByCI? && b.ci.CIBegin?)) && !a.CIBegin?
    ensures
      var t := Run(cfg, s, trace);
      CIStep(cfg, t, a).store.cis == t.store.cis
  {
    StalePass(cfg, s, trace);
    StaleStep(cfg, Run(cfg, s, trace), a, s.ci, CIWrites(cfg, s, trace));
  }

  /** So for a whole pass: it writes what its decision on the stale copy lets
      it write, and nothing more. */
  lemma StaleDecision(cfg: Config, s: State, view: CIView, trace: seq<Action>)
    requires s.ci.CIRest? && CIViewPossible(s.store, view) && view.copy + 1 < |s.store.cis|
    requires forall a | a in trace :: !(a.ByCI? && a.ci.CIBegin?)
    ensures
      var begun := CIStep(cfg, s, CIBegin(view));
      StaleDid(DecideCI(cfg, s.store, view), CIWrites(cfg, begun, trace))
  {
    var begun := CIStep(cfg, s, CIBegin(view));
    if begun.ci.CIRest? {
      RestWritesNothing(cfg, begun, trace);
    } else {
      StalePass(cfg, begun, trace);
    }
  }

  lemma {:induction false} RestWritesNothing(cfg: Config, s: State, trace: seq<Action>)
    requires s.ci.CIRest? && forall a | a in trace :: !(a.ByCI? && a.ci.CIBegin?)
    ensures Run(cfg, s, trace).ci.CIRest? && CIWrites(cfg, s, trace) == []
  {
    if trace != [] {
      RestWritesNothing(cfg, s, trace[..|trace| - 1]);
      assert Last(trace) in trace;
    }
  }

  /** And it can do all of that: undisturbed, a stale pass that starts a build
      marks the Pods and creates another. */
  lemma StaleBuildHappens(cfg: Config, s: State)
    requires Stale(s) && s.ci.CIDeleting? && s.ci.allowed && s.ci.svc < |s.store.svcs|
    ensures CIWrites(cfg, s, [ByCI(CIDeletePods), ByCI(CICreatePod(Created))]) ==
            [MarkedPods(|s.store.pods|), CreatedPod(s.ci.copy, s.ci.svc, |s.store.pods|)]
  {
    var first, both := [ByCI(CIDeletePods)], [ByCI(CIDeletePods), ByCI(CICreatePod(Created))];
    assert both[..1] == first && first[..0] == [];
    assert Run(cfg, s, first) == CIStep(cfg, s, CIDeletePods);
    assert CIWrites(cfg, s, first) == [MarkedPods(|s.store.pods|)];
  }

  /** A stale pass over a copy that had succeeded writes the CD. */
  lemma StaleEnsureHappens(cfg: Config, s: State)
    requires Stale(s) && s.ci.CIEnsuring? && s.ci.svc < |s.store.svcs|
    ensures
      var seen := if s.store.cds == [] then None else Some(|s.store.cds| - 1);
      CIWrites(cfg, s, [ByCI(CIEnsureCD(seen))]) == [EnsuredCD(s.ci.copy, s.ci.svc)]
  {
    var seen := if s.store.cds == [] then None else Some(|s.store.cds| - 1);
    assert [ByCI(CIEnsureCD(seen))][..0] == [];
  }
}
