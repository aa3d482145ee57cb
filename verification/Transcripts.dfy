/** The agent's neutral conversation with a model, and its protocol: a prompt,
    then answers that call tools, each followed by the results of its calls. */
module Transcripts {
  import opened Common

  /** A JSON value; only its encodings matter here. */
  type Json = string

  datatype Call = Call(id: string, name: string, input: Json)

  datatype Result = Result(id: string, name: string, output: string, isError: bool)

  /** The content blocks of the Messages API; Other stands for the kinds that
      are only ever replayed. */
  datatype Block =
    | TextBlock(text: string)
    | ToolUse(id: string, name: string, input: Json)
    | ToolResult(id: string, output: string, isError: bool)
    | Other(content: string)

  datatype Raw = FromAnthropic(content: seq<Block>) | FromOpenAI

  datatype Stop = End | ToolUse_ | MaxTokens | Refusal

  datatype Reply = Reply(text: string, calls: seq<Call>, stop: Stop, raw: Raw)

  datatype Message =
    | User(text: string)
    | Assistant(text: string, calls: seq<Call>, raw: Raw)
    | Tool(results: seq<Result>)

  /** One result for each call, in order. */
  predicate Matches(calls: seq<Call>, results: seq<Result>) {
    && |results| == |calls|
    && forall i | 0 <= i < |calls| :: results[i].id == calls[i].id && results[i].name == calls[i].name
  }

  /** user (assistant tool)*, each tool message answering the calls of the
      assistant message before it. */
  predicate Paired(ms: seq<Message>) {
    |ms| % 2 == 1 && ms[0].User? && forall i | 0 < i < |ms| :: PairedAt(ms, i)
  }

  predicate PairedAt(ms: seq<Message>, i: int)
    requires 0 < i < |ms|
  {
    if i % 2 == 1 then ms[i].Assistant? && ms[i].calls != []
    else ms[i].Tool? && ms[i - 1].Assistant? && Matches(ms[i - 1].calls, ms[i].results)
  }

  /** An answer that called tools, and what the tools said. */
  datatype Turn = Turn(reply: Reply, results: seq<Result>)

  function Transcript(prompt: string, turns: seq<Turn>): seq<Message> {
    if turns == [] then [User(prompt)]
    else
      var t := Last(turns);
      Transcript(prompt, turns[..|turns| - 1]) + [Assistant(t.reply.text, t.reply.calls, t.reply.raw), Tool(t.results)]
  }

  predicate Answered(t: Turn) {
    t.reply.calls != [] && Matches(t.reply.calls, t.results)
  }

  lemma {:induction false} TranscriptIsPaired(prompt: string, turns: seq<Turn>)
    requires forall t | t in turns :: Answered(t)
    ensures Paired(Transcript(prompt, turns)) && |Transcript(prompt, turns)| == 2 * |turns| + 1
    ensures Transcript(prompt, turns)[0] == User(prompt)
  {
    if turns != [] {
      var n := |turns| - 1;
      TranscriptIsPaired(prompt, turns[..n]);
      var before, ms := Transcript(prompt, turns[..n]), Transcript(prompt, turns);
      assert Answered(turns[n]);
      forall i | 0 < i < |ms|
        ensures PairedAt(ms, i)
      {
        if i < |before| {
          assert PairedAt(before, i);
          assert ms[i] == before[i] && ms[i - 1] == before[i - 1];
        }
      }
    }
  }
}
