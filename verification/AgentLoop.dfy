/** The agent's tool loop, with its fallback to one edit plan. The model, the
    tools and the repository's files answer anything. */
module AgentLoop {
  import opened Common
  import opened Transcripts

  /** How a completion ends: an answer, a refusal of tool calling, or any other
      error. */
  datatype Outcome = Replied(reply: Reply) | ToolsUnsupported | Broken

  datatype Mode = WithTools | ForPlan

  datatype Exchange = Exchange(messages: seq<Message>, mode: Mode, outcome: Outcome)

  class Provider {
    /** Whether this provider can find that a model rejects tool calling. */
    const mayReject: bool
    var supportsTools: bool
    var exchanges: seq<Exchange>

    constructor (mayReject: bool, supportsTools: bool)
      ensures this.mayReject == mayReject && this.supportsTools == supportsTools && exchanges == []
    {
      this.mayReject := mayReject;
      this.supportsTools := supportsTools;
      exchanges := [];
    }

    method Complete(messages: seq<Message>, mode: Mode) returns (o: Outcome)
      modifies this
      ensures exchanges == old(exchanges) + [Exchange(messages, mode, o)]
      ensures o.ToolsUnsupported? ==> mode == WithTools && mayReject && !supportsTools
      ensures !o.ToolsUnsupported? ==> supportsTools == old(supportsTools)
    {
      var rejected: bool, broken: bool, reply: Reply := *, *, *;
      if rejected && mode == WithTools && mayReject {
        supportsTools := false;
        o := ToolsUnsupported;
      } else {
        o := if broken then Broken else Replied(reply);
      }
      exchanges := exchanges + [Exchange(messages, mode, o)];
    }
  }

  datatype Use = Use(name: string, input: Json)

  class Tools {
    var uses: seq<Use>

    constructor ()
      ensures uses == []
    {
      uses := [];
    }

    method Run(name: string, input: Json) returns (output: string, isError: bool)
      modifies this
      ensures uses == old(uses) + [Use(name, input)]
    {
      output, isError := *, *;
      uses := uses + [Use(name, input)];
    }
  }

  datatype Failure = Declined | OutOfTokens | CutOff | StoppedAfter(steps: nat) | ProviderFailed | BadPlan

  datatype Answer = Summary(text: string) | Failed(why: Failure)

  /** A reply after which the loop goes on. */
  predicate GoesOn(o: Outcome) {
    o.Replied? && o.reply.stop != Refusal && o.reply.stop != MaxTokens && o.reply.calls != []
  }

  /** What the loop makes of any other outcome but ToolsUnsupported. */
  function EndOf(o: Outcome): Answer
    requires !GoesOn(o) && !o.ToolsUnsupported?
  {
    match o
    case Broken => Failed(ProviderFailed)
    case Replied(reply) =>
      if reply.stop == Refusal then Failed(Declined)
      else if reply.calls == [] then
        if reply.stop == MaxTokens then Failed(OutOfTokens) else Summary(reply.text)
      else Failed(CutOff)
  }

  function UsesOf(calls: seq<Call>): seq<Use> {
    seq(|calls|, i requires 0 <= i < |calls| => Use(calls[i].name, calls[i].input))
  }

  function UsesIn(turns: seq<Turn>): seq<Use> {
    if turns == [] then [] else UsesIn(turns[..|turns| - 1]) + UsesOf(Last(turns).reply.calls)
  }

  // -------------------------------------------------------------- plan mode

  datatype Change = Write(path: string, content: string) | Delete(path: string)

  datatype Plan = Plan(summary: string, changes: seq<Change>)

  /** What the run is given: files is the plan instructions with the files of
      the repository, parsePlan is None where the text is malformed, and
      inputOf is the tool input of a change. */
  datatype Job = Job(
    prompt: string,
    files: string,
    maxSteps: nat,
    parsePlan: string -> Option<Plan>,
    inputOf: Change -> Json)

  function PlanPrompt(job: Job): string {
    job.prompt + job.files
  }

  function PlanUses(job: Job, changes: seq<Change>): seq<Use> {
    seq(|changes|, i requires 0 <= i < |changes| =>
      Use(if changes[i].Write? then "write_file" else "delete_file", job.inputOf(changes[i])))
  }

  function PlanAnswer(job: Job, o: Outcome): Answer {
    if !o.Replied? then Failed(ProviderFailed)
    else
      match job.parsePlan(o.reply.text)
      case None => Failed(BadPlan)
      case Some(plan) => Summary(plan.summary)
  }

  function PlannedUses(job: Job, o: Outcome): seq<Use> {
    if !o.Replied? || job.parsePlan(o.reply.text).None? then []
    else PlanUses(job, job.parsePlan(o.reply.text).value.changes)
  }

  /** The planned changes, made in order. */
  method MakeChanges(job: Job, changes: seq<Change>, tools: Tools)
    modifies tools
    ensures tools.uses == old(tools.uses) + PlanUses(job, changes)
  {
    ghost var before, planned := tools.uses, PlanUses(job, changes);
    for i := 0 to |changes|
      invariant tools.uses == before + planned[..i]
    {
      var name := if changes[i].Write? then "write_file" else "delete_file";
      var output, isError := tools.Run(name, job.inputOf(changes[i]));
      OneMorePlanned(job, changes, i);
      assert before + planned[..i] + [planned[i]] == before + planned[..i + 1];
    }
  }

  lemma OneMorePlanned(job: Job, changes: seq<Change>, i: nat)
    requires i < |changes|
    ensures
      var planned := PlanUses(job, changes);
      && |planned| == |changes|
      && planned[i] == Use(if changes[i].Write? then "write_file" else "delete_file", job.inputOf(changes[i]))
      && planned[..i + 1] == planned[..i] + [planned[i]]
  {
  }

  method RunPlan(job: Job, provider: Provider, tools: Tools) returns (r: Answer, ghost o: Outcome)
    modifies provider, tools
    ensures provider.exchanges == old(provider.exchanges) + [Exchange([User(PlanPrompt(job))], ForPlan, o)]
    ensures r == PlanAnswer(job, o)
    ensures tools.uses == old(tools.uses) + PlannedUses(job, o)
  {
    var res := provider.Complete([User(PlanPrompt(job))], ForPlan);
    o := res;
    if !res.Replied? {
      return Failed(ProviderFailed), o;
    }
    var plan := job.parsePlan(res.reply.text);
    if plan.None? {
      return Failed(BadPlan), o;
    }
    MakeChanges(job, plan.value.changes, tools);
    r := Summary(plan.value.summary);
  }

  // -------------------------------------------------------------- tool mode

  /** The calls of one answer, run in order. */
  method RunCalls(calls: seq<Call>, tools: Tools) returns (results: seq<Result>)
    modifies tools
    ensures Matches(calls, results)
    ensures tools.uses == old(tools.uses) + UsesOf(calls)
  {
    results := [];
    for i := 0 to |calls|
      invariant |results| == i
      invariant forall j | 0 <= j < i :: results[j].id == calls[j].id && results[j].name == calls[j].name
      invariant tools.uses == old(tools.uses) + UsesOf(calls)[..i]
    {
      var output, isError := tools.Run(calls[i].name, calls[i].input);
      results := results + [Result(calls[i].id, calls[i].name, output, isError)];
    }
  }

  /** The k-th request is the transcript of the turns before it, and the turn
      made of its answer follows. */
  predicate Follows(job: Job, log: seq<Exchange>, turns: seq<Turn>, k: nat)
    requires k < |turns| && k < |log|
  {
    && log[k] == Exchange(Transcript(job.prompt, turns[..k]), WithTools, Replied(turns[k].reply))
    && GoesOn(log[k].outcome)
    && Answered(turns[k])
  }

  /** The exchanges of a run that starts with tools, from its turns. */
  predicate ToolRun(job: Job, log: seq<Exchange>, turns: seq<Turn>, uses: seq<Use>, r: Answer) {
    && |turns| <= job.maxSteps
    && |turns| <= |log|
    && (forall k: nat | k < |turns| :: Follows(job, log, turns, k))
    && Finished(job, log, turns, uses, r)
  }

  /** How it ends after these turns: out of steps, or with a last exchange,
      which a plan may replace. */
  predicate Finished(job: Job, log: seq<Exchange>, turns: seq<Turn>, uses: seq<Use>, r: Answer)
    requires |turns| <= |log|
  {
    if |turns| == job.maxSteps then
      |log| == |turns| && r == Failed(StoppedAfter(job.maxSteps)) && uses == UsesIn(turns)
    else
      && |log| > |turns|
      && var last := log[|turns|];
         && last.messages == Transcript(job.prompt, turns) && last.mode == WithTools
         && !GoesOn(last.outcome)
         && if last.outcome.ToolsUnsupported? then
              && |log| == |turns| + 2
              && PlanRun(job, log[|turns| + 1], r)
              && uses == UsesIn(turns) + PlannedUses(job, log[|turns| + 1].outcome)
            else
              |log| == |turns| + 1 && r == EndOf(last.outcome) && uses == UsesIn(turns)
  }

  predicate PlanRun(job: Job, e: Exchange, r: Answer) {
    e.messages == [User(PlanPrompt(job))] && e.mode == ForPlan && r == PlanAnswer(job, e.outcome)
  }

  lemma OneMoreTurn(prompt: string, turns: seq<Turn>, turn: Turn)
    ensures UsesIn(turns + [turn]) == UsesIn(turns) + UsesOf(turn.reply.calls)
    ensures
      Transcript(prompt, turns + [turn]) ==
      Transcript(prompt, turns) + [Assistant(turn.reply.text, turn.reply.calls, turn.reply.raw), Tool(turn.results)]
  {
    assert (turns + [turn])[..|turns|] == turns;
  }

  predicate SoFar(job: Job, log: seq<Exchange>, turns: seq<Turn>) {
    |log| == |turns| && forall k: nat | k < |turns| :: Follows(job, log, turns, k)
  }

  lemma TurnFollows(job: Job, log: seq<Exchange>, turns: seq<Turn>, reply: Reply, results: seq<Result>)
    requires SoFar(job, log, turns) && GoesOn(Replied(reply)) && Matches(reply.calls, results)
    ensures
      SoFar(job, log + [Exchange(Transcript(job.prompt, turns), WithTools, Replied(reply))],
            turns + [Turn(reply, results)])
  {
    var longer := log + [Exchange(Transcript(job.prompt, turns), WithTools, Replied(reply))];
    var more := turns + [Turn(reply, results)];
    forall k: nat | k < |more|
      ensures Follows(job, longer, more, k)
    {
      assert more[..k] == turns[..k];
      if k < |turns| {
        assert Follows(job, log, turns, k);
      } else {
        assert turns[..k] == turns;
      }
    }
  }

  lemma RunsOut(job: Job, log: seq<Exchange>, turns: seq<Turn>)
    requires SoFar(job, log, turns) && |turns| == job.maxSteps
    ensures ToolRun(job, log, turns, UsesIn(turns), Failed(StoppedAfter(job.maxSteps)))
  {
  }

  lemma RunEnds(job: Job, before: seq<Exchange>, turns: seq<Turn>, o: Outcome)
    requires SoFar(job, before, turns) && |turns| < job.maxSteps && !GoesOn(o) && !o.ToolsUnsupported?
    ensures
      var log := before + [Exchange(Transcript(job.prompt, turns), WithTools, o)];
      ToolRun(job, log, turns, UsesIn(turns), EndOf(o))
  {
    var log := before + [Exchange(Transcript(job.prompt, turns), WithTools, o)];
    forall k: nat | k < |turns|
      ensures Follows(job, log, turns, k)
    {
      assert Follows(job, before, turns, k);
    }
  }

  lemma PlanFinishes(job: Job, log: seq<Exchange>, turns: seq<Turn>, plan: Exchange, r: Answer)
    requires |log| == |turns| + 2 && |turns| != job.maxSteps
    requires log[|turns|] == Exchange(Transcript(job.prompt, turns), WithTools, ToolsUnsupported)
    requires log[|turns| + 1] == plan && PlanRun(job, plan, r)
    ensures Finished(job, log, turns, UsesIn(turns) + PlannedUses(job, plan.outcome), r)
  {
  }

  lemma RunEndsInPlan(job: Job, before: seq<Exchange>, turns: seq<Turn>, log: seq<Exchange>, r: Answer)
    requires SoFar(job, before, turns) && |turns| < job.maxSteps
    requires |log| == |before| + 2 && log[..|before|] == before
    requires log[|before|] == Exchange(Transcript(job.prompt, turns), WithTools, ToolsUnsupported)
    requires PlanRun(job, log[|before| + 1], r)
    ensures ToolRun(job, log, turns, UsesIn(turns) + PlannedUses(job, log[|before| + 1].outcome), r)
  {
    forall k: nat | k < |turns|
      ensures Follows(job, log, turns, k)
    {
      assert Follows(job, before, turns, k);
      assert log[k] == before[k];
    }
    PlanFinishes(job, log, turns, log[|before| + 1], r);
  }

  /** The ways out of the loop, in its order. */
  method Conclude(res: Outcome) returns (r: Answer)
    requires !GoesOn(res) && !res.ToolsUnsupported?
    ensures r == EndOf(res)
  {
    if res.Broken? {
      return Failed(ProviderFailed);
    }
    if res.reply.stop == Refusal {
      return Failed(Declined);
    }
    if res.reply.calls == [] {
      if res.reply.stop == MaxTokens {
        return Failed(OutOfTokens);
      }
      return Summary(res.reply.text);
    }
    r := Failed(CutOff);
  }

  /** What a run has asked so far: its log and uses come on top of what the
      provider and the tools had recorded before. */
  ghost predicate Recorded(provider: Provider, tools: Tools, asked: seq<Exchange>, used: seq<Use>,
                           log: seq<Exchange>, uses: seq<Use>)
    reads provider, tools
  {
    provider.exchanges == asked + log && tools.uses == used + uses
  }

  /** Leaves the loop, over a plan if the model rejects tool calling. */
  method Leave(job: Job, provider: Provider, tools: Tools, res: Outcome, ghost before: seq<Exchange>,
               ghost turns: seq<Turn>, ghost asked: seq<Exchange>, ghost used: seq<Use>)
    returns (r: Answer, ghost log: seq<Exchange>, ghost uses: seq<Use>)
    requires !GoesOn(res) && SoFar(job, before, turns) && |turns| < job.maxSteps
    requires Recorded(provider, tools, asked, used,
                      before + [Exchange(Transcript(job.prompt, turns), WithTools, res)], UsesIn(turns))
    modifies provider, tools
    ensures Recorded(provider, tools, asked, used, log, uses)
    ensures ToolRun(job, log, turns, uses, r)
  {
    log, uses := before + [Exchange(Transcript(job.prompt, turns), WithTools, res)], UsesIn(turns);
    if res.ToolsUnsupported? {
      ghost var o: Outcome;
      r, o := RunPlan(job, provider, tools);
      log, uses := log + [Exchange([User(PlanPrompt(job))], ForPlan, o)], uses + PlannedUses(job, o);
      RunEndsInPlan(job, before, turns, log, r);
    } else {
      RunEnds(job, before, turns, res);
      r := Conclude(res);
    }
  }

  /** The rest of the loop body: the answer and the results of its calls join
      the messages. */
  method GoOn(job: Job, provider: Provider, tools: Tools, reply: Reply, messages0: seq<Message>,
              ghost before: seq<Exchange>, ghost turns0: seq<Turn>, ghost asked: seq<Exchange>, ghost used: seq<Use>)
    returns (messages: seq<Message>, ghost log: seq<Exchange>, ghost turns: seq<Turn>)
    requires SoFar(job, before, turns0) && GoesOn(Replied(reply)) && messages0 == Transcript(job.prompt, turns0)
    requires Recorded(provider, tools, asked, used,
                      before + [Exchange(messages0, WithTools, Replied(reply))], UsesIn(turns0))
    modifies tools
    ensures |turns| == |turns0| + 1 && SoFar(job, log, turns)
    ensures messages == Transcript(job.prompt, turns)
    ensures Recorded(provider, tools, asked, used, log, UsesIn(turns))
  {
    messages := messages0 + [Assistant(reply.text, reply.calls, reply.raw)];
    var results := RunCalls(reply.calls, tools);
    messages := messages + [Tool(results)];
    turns := turns0 + [Turn(reply, results)];
    log := before + [Exchange(messages0, WithTools, Replied(reply))];
    TurnFollows(job, before, turns0, reply, results);
    OneMoreTurn(job.prompt, turns0, Turn(reply, results));
  }

  /** runAgent, when the provider supports tools. log and uses are what the
      run adds to the provider's and the tools' record. */
  method RunWithTools(job: Job, provider: Provider, tools: Tools)
    returns (r: Answer, ghost turns: seq<Turn>, ghost log: seq<Exchange>, ghost uses: seq<Use>)
    modifies provider, tools
    ensures Recorded(provider, tools, old(provider.exchanges), old(tools.uses), log, uses)
    ensures ToolRun(job, log, turns, uses, r)
  {
    ghost var asked, used := provider.exchanges, tools.uses;
    turns, log := [], [];
    var messages := [User(job.prompt)];
    for step := 0 to job.maxSteps
      invariant |turns| == step && SoFar(job, log, turns)
      invariant messages == Transcript(job.prompt, turns)
      invariant Recorded(provider, tools, asked, used, log, UsesIn(turns))
    {
      var res := provider.Complete(messages, WithTools);
      assert asked + (log + [Exchange(messages, WithTools, res)]) == asked + log + [Exchange(messages, WithTools, res)];
      if !GoesOn(res) {
        r, log, uses := Leave(job, provider, tools, res, log, turns, asked, used);
        return;
      }
      messages, log, turns := GoOn(job, provider, tools, res.reply, messages, log, turns, asked, used);
    }
    RunsOut(job, log, turns);
    r, uses := Failed(StoppedAfter(job.maxSteps)), UsesIn(turns);
  }

  /** runAgent. */
  method RunAgent(job: Job, provider: Provider, tools: Tools)
    returns (r: Answer, ghost turns: seq<Turn>, ghost log: seq<Exchange>, ghost uses: seq<Use>)
    modifies provider, tools
    ensures Recorded(provider, tools, old(provider.exchanges), old(tools.uses), log, uses)
    ensures if old(provider.supportsTools) then ToolRun(job, log, turns, uses, r)
            else |log| == 1 && PlanRun(job, log[0], r) && uses == PlannedUses(job, log[0].outcome)
  {
    if !provider.supportsTools {
      ghost var o: Outcome;
      r, o := RunPlan(job, provider, tools);
      turns, log, uses := [], [Exchange([User(PlanPrompt(job))], ForPlan, o)], PlannedUses(job, o);
      return;
    }
    r, turns, log, uses := RunWithTools(job, provider, tools);
  }

  /** Every request with tools is a paired transcript that starts from the
      prompt; there are at most maxSteps of them, and at most one for a plan,
      which is the last. */
  lemma RequestsArePaired(job: Job, log: seq<Exchange>, turns: seq<Turn>, uses: seq<Use>, r: Answer, k: nat)
    requires ToolRun(job, log, turns, uses, r) && k < |log|
    ensures
      if log[k].mode == WithTools then
        && k < job.maxSteps
        && Paired(log[k].messages)
        && log[k].messages[0] == User(job.prompt)
        && |log[k].messages| == 2 * k + 1
      else
        k == |log| - 1 && log[k].messages == [User(job.prompt + job.files)]
  {
    if k < |turns| {
      assert Follows(job, log, turns, k);
    }
    if k <= |turns| {
      var before := turns[..k];
      forall turn | turn in before
        ensures Answered(turn)
      {
        var i: nat :| i < k && turns[i] == turn;
        assert Follows(job, log, turns, i);
      }
      TranscriptIsPaired(job.prompt, before);
      assert k == |turns| ==> before == turns;
    }
  }

  /** A plan that parses, if there is one. */
  predicate Planned(job: Job, o: Outcome, plan: Plan) {
    o.Replied? && job.parsePlan(o.reply.text) == Some(plan)
  }

  /** An answer that ends a conversation well: not refused, not cut off and
      without calls. */
  predicate Closing(o: Outcome) {
    o.Replied? && o.reply.stop != Refusal && o.reply.stop != MaxTokens && o.reply.calls == []
  }

  /** The run has a summary exactly if its last exchange is such an answer, or
      a plan that parses, and then that is the summary. */
  lemma SummaryIff(job: Job, log: seq<Exchange>, turns: seq<Turn>, uses: seq<Use>, r: Answer, text: string)
    requires ToolRun(job, log, turns, uses, r)
    ensures r == Summary(text) <==>
            && |turns| < job.maxSteps
            && var e := Last(log);
               if e.mode == WithTools then Closing(e.outcome) && text == e.outcome.reply.text
               else exists plan :: Planned(job, e.outcome, plan) && text == plan.summary
  {
    if |turns| < job.maxSteps {
      var last := log[|turns|];
      if last.outcome.ToolsUnsupported? {
        var e := log[|turns| + 1];
        if e.outcome.Replied? && job.parsePlan(e.outcome.reply.text).Some? {
          assert Planned(job, e.outcome, job.parsePlan(e.outcome.reply.text).value);
        }
      }
    }
  }

  /** Otherwise the failure says why: no steps left, an answer that was refused
      or cut off, a provider that failed or a plan that does not parse. */
  lemma FailureIff(job: Job, log: seq<Exchange>, turns: seq<Turn>, uses: seq<Use>, r: Answer)
    requires ToolRun(job, log, turns, uses, r)
    ensures (exists n :: r == Failed(StoppedAfter(n))) <==> |turns| == job.maxSteps
    ensures |turns| < job.maxSteps ==>
              var e := Last(log);
              && (r == Failed(ProviderFailed) <==> !e.outcome.Replied?)
              && (r == Failed(Declined) <==>
                    e.mode == WithTools && e.outcome.Replied? && e.outcome.reply.stop == Refusal)
              && (r == Failed(OutOfTokens) <==>
                    e.mode == WithTools && e.outcome.Replied? && e.outcome.reply.stop == MaxTokens &&
                    e.outcome.reply.calls == [])
              && (r == Failed(CutOff) <==>
                    e.mode == WithTools && e.outcome.Replied? && e.outcome.reply.stop == MaxTokens &&
                    e.outcome.reply.calls != [])
              && (r == Failed(BadPlan) <==>
                    e.mode == ForPlan && e.outcome.Replied? && job.parsePlan(e.outcome.reply.text).None?)
  {
  }

  /** The tools that a run with tools has used: those of its calls, in order,
      then those of the plan, where a change that writes is a write_file and
      one that deletes is a delete_file. */
  lemma PlanIsCarriedOut(job: Job, log: seq<Exchange>, turns: seq<Turn>, uses: seq<Use>, r: Answer, plan: Plan)
    requires ToolRun(job, log, turns, uses, r) && |turns| < job.maxSteps
    requires Last(log).mode == ForPlan && Planned(job, Last(log).outcome, plan)
    ensures |uses| == |UsesIn(turns)| + |plan.changes| && uses[..|UsesIn(turns)|] == UsesIn(turns)
    ensures forall i | 0 <= i < |plan.changes| ::
      uses[|UsesIn(turns)| + i] ==
      match plan.changes[i]
      case Write(_, _) => Use("write_file", job.inputOf(plan.changes[i]))
      case Delete(_) => Use("delete_file", job.inputOf(plan.changes[i]))
  {
    PlanFinished(job, log, turns, uses, r, plan);
    var before, planned := UsesIn(turns), PlanUses(job, plan.changes);
    assert (before + planned)[..|before|] == before;
    assert forall i | 0 <= i < |planned| :: (before + planned)[|before| + i] == planned[i];
  }

  lemma PlanFinished(job: Job, log: seq<Exchange>, turns: seq<Turn>, uses: seq<Use>, r: Answer, plan: Plan)
    requires |turns| < job.maxSteps && |turns| <= |log| && Finished(job, log, turns, uses, r)
    requires Last(log).mode == ForPlan && Planned(job, Last(log).outcome, plan)
    ensures uses == UsesIn(turns) + PlanUses(job, plan.changes)
  {
  }

  lemma UsesAreCalls(turns: seq<Turn>, turn: Turn, i: nat)
    requires i < |turn.reply.calls|
    ensures
      var before, after := UsesIn(turns), UsesIn(turns + [turn]);
      && |after| == |before| + |turn.reply.calls| && after[..|before|] == before
      && after[|before| + i] == Use(turn.reply.calls[i].name, turn.reply.calls[i].input)
  {
    OneMoreTurn("", turns, turn);
  }

  lemma RequestIs(job: Job, log: seq<Exchange>, turns: seq<Turn>, uses: seq<Use>, r: Answer, k: nat)
    requires ToolRun(job, log, turns, uses, r) && k < |log| && log[k].mode == WithTools
    ensures k <= |turns| && log[k].messages == Transcript(job.prompt, turns[..k])
    ensures k < |turns| ==> log[k].outcome == Replied(turns[k].reply)
  {
    if k < |turns| {
      assert Follows(job, log, turns, k);
    } else {
      assert turns[..|turns|] == turns;
    }
  }

  /** Each request carries on from the one before it: the model's answer to
      that request, unchanged, and the results of its calls. */
  lemma RequestsCarryOn(job: Job, log: seq<Exchange>, turns: seq<Turn>, uses: seq<Use>, r: Answer, k: nat)
    requires ToolRun(job, log, turns, uses, r)
    requires k + 1 < |log| && log[k + 1].mode == WithTools
    ensures log[k].mode == WithTools && log[k].outcome.Replied?
    ensures
      var reply := log[k].outcome.reply;
      exists results ::
        && Matches(reply.calls, results)
        && log[k + 1].messages ==
           log[k].messages + [Assistant(reply.text, reply.calls, reply.raw), Tool(results)]
  {
    RequestIs(job, log, turns, uses, r, k + 1);
    assert Follows(job, log, turns, k);
    RequestIs(job, log, turns, uses, r, k);
    CarriesOn(job.prompt, turns, k);
  }

  lemma CarriesOn(prompt: string, turns: seq<Turn>, k: nat)
    requires k < |turns| && Answered(turns[k])
    ensures
      var t := turns[k];
      && Matches(t.reply.calls, t.results)
      && Transcript(prompt, turns[..k + 1]) ==
         Transcript(prompt, turns[..k]) + [Assistant(t.reply.text, t.reply.calls, t.reply.raw), Tool(t.results)]
  {
    OneMoreTurn(prompt, turns[..k], turns[k]);
    assert turns[..k + 1] == turns[..k] + [turns[k]];
  }
}
