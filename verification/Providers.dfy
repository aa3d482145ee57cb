/** The two encodings of the conversation: chat-completions messages and the
    Messages API, and what each provider makes of a response. */
module Providers {
  import opened Common
  import opened Transcripts
  import opened AgentLoop

  /** JSON.stringify, JSON.parse, and the object that carries a malformed
      text. */
  datatype JsonCodec = JsonCodec(stringify: Json -> string, parse: string -> Option<Json>, malformed: string -> Json)

  ghost predicate Inverse(c: JsonCodec) {
    forall v :: c.parse(c.stringify(v)) == Some(v) && c.stringify(v) != ""
  }

  // ------------------------------------------------------- chat completions

  datatype ToolCall = ToolCall(id: string, name: string, arguments: string)

  datatype ChatMessage =
    | SystemMessage(content: string)
    | UserMessage(content: string)
    | AssistantMessage(said: Option<string>, calls: seq<ToolCall>)
    | ToolMessage(callId: string, content: string)

  function Encoded(c: JsonCodec, calls: seq<Call>): seq<ToolCall> {
    seq(|calls|, i requires 0 <= i < |calls| => ToolCall(calls[i].id, calls[i].name, c.stringify(calls[i].input)))
  }

  function ToolMessages(results: seq<Result>): seq<ChatMessage> {
    seq(|results|, i requires 0 <= i < |results| => ToolMessage(results[i].id, results[i].output))
  }

  function ChatMessages(c: JsonCodec, m: Message): seq<ChatMessage> {
    match m
    case User(text) => [UserMessage(text)]
    case Assistant(text, calls, _) => [AssistantMessage(if text == "" then None else Some(text), Encoded(c, calls))]
    case Tool(results) => ToolMessages(results)
  }

  function Chat(c: JsonCodec, ms: seq<Message>): seq<ChatMessage> {
    if ms == [] then [] else ChatMessages(c, ms[0]) + Chat(c, ms[1..])
  }

  lemma {:induction false} ChatAppend(c: JsonCodec, ms: seq<Message>, m: Message)
    ensures Chat(c, ms + [m]) == Chat(c, ms) + ChatMessages(c, m)
  {
    if ms == [] {
      assert [m][1..] == [] && ms + [m] == [m];
    } else {
      ChatAppend(c, ms[1..], m);
      assert (ms + [m])[1..] == ms[1..] + [m];
    }
  }

  /** toOpenAIMessages. */
  method ToOpenAIMessages(c: JsonCodec, system: string, ms: seq<Message>) returns (out: seq<ChatMessage>)
    ensures out == [SystemMessage(system)] + Chat(c, ms)
  {
    out := [SystemMessage(system)];
    for i := 0 to |ms|
      invariant out == [SystemMessage(system)] + Chat(c, ms[..i])
    {
      ChatAppend(c, ms[..i], ms[i]);
      assert ms[..i + 1] == ms[..i] + [ms[i]];
      match ms[i] {
        case User(text) =>
          out := out + [UserMessage(text)];
        case Assistant(text, calls, _) =>
          out := out + [AssistantMessage(if text == "" then None else Some(text), Encoded(c, calls))];
        case Tool(results) =>
          out := PushResults(out, results);
      }
    }
    assert ms[..|ms|] == ms;
  }

  method PushResults(before: seq<ChatMessage>, results: seq<Result>) returns (out: seq<ChatMessage>)
    ensures out == before + ToolMessages(results)
  {
    out := before;
    for j := 0 to |results|
      invariant out == before + ToolMessages(results)[..j]
    {
      out := out + [ToolMessage(results[j].id, results[j].output)];
    }
  }

  function IdsOf(calls: seq<ToolCall>): seq<string> {
    seq(|calls|, i requires 0 <= i < |calls| => calls[i].id)
  }

  /** The protocol of chat completions: right after an assistant message come
      tool messages, one for each of its calls in order, and nowhere else. */
  predicate Answers(out: seq<ChatMessage>, pending: seq<string>)
    decreases |out|
  {
    if out == [] then pending == []
    else if out[0].ToolMessage? then
      pending != [] && out[0].callId == pending[0] && Answers(out[1..], pending[1..])
    else
      pending == [] && Answers(out[1..], if out[0].AssistantMessage? then IdsOf(out[0].calls) else [])
  }

  lemma {:induction false} ToolMessagesAnswer(results: seq<Result>, pending: seq<string>, rest: seq<ChatMessage>)
    requires |pending| == |results| && forall i | 0 <= i < |results| :: pending[i] == results[i].id
    requires Answers(rest, [])
    ensures Answers(ToolMessages(results) + rest, pending)
  {
    var out := ToolMessages(results) + rest;
    if results == [] {
      assert out == rest && pending == [];
    } else {
      ToolMessagesAnswer(results[1..], pending[1..], rest);
      assert out[1..] == ToolMessages(results[1..]) + rest;
    }
  }

  /** An assistant message and the results of its calls, translated. */
  lemma PairAnswers(c: JsonCodec, a: Message, r: Message, rest: seq<ChatMessage>)
    requires a.Assistant? && r.Tool? && Matches(a.calls, r.results) && Answers(rest, [])
    ensures Answers(ChatMessages(c, a) + (ChatMessages(c, r) + rest), [])
  {
    var out := ChatMessages(c, a) + (ChatMessages(c, r) + rest);
    var ids := IdsOf(Encoded(c, a.calls));
    ToolMessagesAnswer(r.results, ids, rest);
    assert out[1..] == ToolMessages(r.results) + rest;
  }

  lemma {:induction false} ChatAnswersFrom(c: JsonCodec, ms: seq<Message>, i: nat)
    requires Paired(ms) && i % 2 == 1 && i <= |ms|
    ensures Answers(Chat(c, ms[i..]), [])
    decreases |ms| - i
  {
    if i < |ms| {
      assert PairedAt(ms, i) && PairedAt(ms, i + 1);
      ChatAnswersFrom(c, ms, i + 2);
      PairAnswers(c, ms[i], ms[i + 1], Chat(c, ms[i + 2..]));
      TwoMore(c, ms, i);
    }
  }

  lemma TwoMore(c: JsonCodec, ms: seq<Message>, i: nat)
    requires i + 2 <= |ms|
    ensures Chat(c, ms[i..]) == ChatMessages(c, ms[i]) + (ChatMessages(c, ms[i + 1]) + Chat(c, ms[i + 2..]))
  {
    assert ms[i..][1..] == ms[i + 1..] && ms[i + 1..][1..] == ms[i + 2..];
  }

  /** A paired conversation is translated into one in which every call has its
      one tool message, right after the assistant message that made it. */
  lemma ChatIsAnswered(c: JsonCodec, system: string, ms: seq<Message>)
    requires Paired(ms)
    ensures Answers([SystemMessage(system)] + Chat(c, ms), [])
  {
    ChatAnswersFrom(c, ms, 1);
    var user := [UserMessage(ms[0].text)];
    var tail := Chat(c, ms[1..]);
    assert Chat(c, ms) == user + tail;
    assert (user + tail)[1..] == tail;
    assert ([SystemMessage(system)] + Chat(c, ms))[1..] == user + tail;
  }

  // The way back: what the encoding keeps of a conversation.

  function Decoded(c: JsonCodec, calls: seq<ToolCall>): seq<Call> {
    seq(|calls|, i requires 0 <= i < |calls| =>
      Call(calls[i].id, calls[i].name, ParseArguments(c, calls[i].arguments)))
  }

  /** Malformed arguments become an input that the tool rejects. */
  function ParseArguments(c: JsonCodec, text: string): Json {
    var r := c.parse(if text == "" then "{}" else text);
    if r.Some? then r.value else c.malformed(text)
  }

  function Undo(c: JsonCodec, out: seq<ChatMessage>): seq<Message>
    decreases |out|
  {
    if out == [] then []
    else
      match out[0]
      case SystemMessage(_) => Undo(c, out[1..])
      case UserMessage(text) => [User(text)] + Undo(c, out[1..])
      case ToolMessage(_, _) => Undo(c, out[1..])
      case AssistantMessage(said, calls) =>
        var text := if said.None? then "" else said.value;
        var n := |calls|;
        if |out| <= n then []
        else
          [Assistant(text, Decoded(c, calls), FromOpenAI), Tool(Outputs(calls, out[1..n + 1]))] + Undo(c, out[n + 1..])
  }

  function Outputs(calls: seq<ToolCall>, out: seq<ChatMessage>): seq<Result>
    requires |out| == |calls|
  {
    seq(|calls|, i requires 0 <= i < |calls| =>
      Result(calls[i].id, calls[i].name, if out[i].ToolMessage? then out[i].content else "", false))
  }

  /** What chat completions does not carry: the raw response, and whether a
      result is an error. */
  function Stripped(m: Message): Message {
    match m
    case User(_) => m
    case Assistant(text, calls, _) => Assistant(text, calls, FromOpenAI)
    case Tool(results) => Tool(seq(|results|, i requires 0 <= i < |results| => results[i].(isError := false)))
  }

  function StrippedAll(ms: seq<Message>): seq<Message> {
    seq(|ms|, i requires 0 <= i < |ms| => Stripped(ms[i]))
  }

  lemma DecodedEncoded(c: JsonCodec, calls: seq<Call>)
    requires Inverse(c)
    ensures Decoded(c, Encoded(c, calls)) == calls
  {
    forall i | 0 <= i < |calls|
      ensures ParseArguments(c, c.stringify(calls[i].input)) == calls[i].input
    {
      assert c.parse(c.stringify(calls[i].input)) == Some(calls[i].input);
    }
  }

  lemma OutputsOf(c: JsonCodec, calls: seq<Call>, results: seq<Result>)
    requires Matches(calls, results)
    ensures Tool(Outputs(Encoded(c, calls), ToolMessages(results))) == Stripped(Tool(results))
  {
  }

  lemma UndoPair(c: JsonCodec, a: Message, r: Message, rest: seq<ChatMessage>)
    requires Inverse(c) && a.Assistant? && r.Tool? && Matches(a.calls, r.results)
    ensures Undo(c, ChatMessages(c, a) + (ChatMessages(c, r) + rest)) == [Stripped(a), Stripped(r)] + Undo(c, rest)
  {
    var out := ChatMessages(c, a) + (ChatMessages(c, r) + rest);
    var calls := Encoded(c, a.calls);
    assert out[0] == AssistantMessage(if a.text == "" then None else Some(a.text), calls);
    assert out[1..|calls| + 1] == ToolMessages(r.results);
    assert out[|calls| + 1..] == rest;
    DecodedEncoded(c, a.calls);
    OutputsOf(c, a.calls, r.results);
  }

  lemma StrippedTwo(ms: seq<Message>, i: nat)
    requires i + 2 <= |ms|
    ensures StrippedAll(ms[i..]) == [Stripped(ms[i]), Stripped(ms[i + 1])] + StrippedAll(ms[i + 2..])
  {
  }

  /** One pair off the front. */
  lemma UndoTwo(c: JsonCodec, ms: seq<Message>, i: nat)
    requires Inverse(c) && i + 2 <= |ms|
    requires ms[i].Assistant? && ms[i + 1].Tool? && Matches(ms[i].calls, ms[i + 1].results)
    ensures Undo(c, Chat(c, ms[i..])) == [Stripped(ms[i]), Stripped(ms[i + 1])] + Undo(c, Chat(c, ms[i + 2..]))
  {
    TwoMore(c, ms, i);
    UndoPair(c, ms[i], ms[i + 1], Chat(c, ms[i + 2..]));
  }

  lemma {:induction false} UndoFrom(c: JsonCodec, ms: seq<Message>, i: nat)
    requires Inverse(c) && Paired(ms) && i % 2 == 1 && i <= |ms|
    ensures Undo(c, Chat(c, ms[i..])) == StrippedAll(ms[i..])
    decreases |ms| - i
  {
    if i < |ms| {
      assert PairedAt(ms, i) && PairedAt(ms, i + 1);
      UndoFrom(c, ms, i + 2);
      UndoTwo(c, ms, i);
      StrippedTwo(ms, i);
    }
  }

  /** The calls, their inputs and the outputs can be read back. */
  lemma ChatRoundTrip(c: JsonCodec, system: string, ms: seq<Message>)
    requires Inverse(c) && Paired(ms)
    ensures Undo(c, [SystemMessage(system)] + Chat(c, ms)) == StrippedAll(ms)
  {
    UndoFrom(c, ms, 1);
    var user := [UserMessage(ms[0].text)];
    var tail := Chat(c, ms[1..]);
    assert Chat(c, ms) == user + tail;
    assert (user + tail)[1..] == tail;
    assert ([SystemMessage(system)] + Chat(c, ms))[1..] == user + tail;
    assert StrippedAll(ms) == [Stripped(ms[0])] + StrippedAll(ms[1..]);
  }

  // ----------------------------------------------------------- Messages API

  datatype Role = RoleUser | RoleAssistant

  datatype Content = Plain(text: string) | Blocks(blocks: seq<Block>)

  datatype ApiMessage = ApiMessage(role: Role, content: Content)

  function UseBlocks(calls: seq<Call>): seq<Block> {
    seq(|calls|, i requires 0 <= i < |calls| => ToolUse(calls[i].id, calls[i].name, calls[i].input))
  }

  function ResultBlocks(results: seq<Result>): seq<Block> {
    seq(|results|, i requires 0 <= i < |results| =>
      ToolResult(results[i].id, results[i].output, results[i].isError))
  }

  function AssistantBlocks(text: string, calls: seq<Call>): seq<Block> {
    (if text != "" then [TextBlock(text)] else []) + UseBlocks(calls)
  }

  /** The content array of an assistant turn that is not replayed. */
  method FillContent(text: string, calls: seq<Call>) returns (content: seq<Block>)
    ensures content == AssistantBlocks(text, calls)
  {
    content := [];
    if text != "" {
      content := content + [TextBlock(text)];
    }
    ghost var head := content;
    for i := 0 to |calls|
      invariant content == head + UseBlocks(calls)[..i]
    {
      content := content + [ToolUse(calls[i].id, calls[i].name, calls[i].input)];
    }
  }

  function ApiMessageOf(m: Message): ApiMessage {
    match m
    case User(text) => ApiMessage(RoleUser, Plain(text))
    case Assistant(text, calls, raw) =>
      ApiMessage(RoleAssistant, Blocks(if raw.FromAnthropic? then raw.content else AssistantBlocks(text, calls)))
    case Tool(results) => ApiMessage(RoleUser, Blocks(ResultBlocks(results)))
  }

  /** toAnthropicMessages. */
  function ToAnthropicMessages(ms: seq<Message>): seq<ApiMessage> {
    seq(|ms|, i requires 0 <= i < |ms| => ApiMessageOf(ms[i]))
  }

  function CallsIn(blocks: seq<Block>): seq<Call> {
    if blocks == [] then []
    else
      (match blocks[0]
       case ToolUse(id, name, input) => [Call(id, name, input)]
       case _ => []) + CallsIn(blocks[1..])
  }

  /** The calls of a message in its own encoding. */
  predicate OwnCalls(m: Message) {
    m.Assistant? && m.raw.FromAnthropic? ==> m.calls == CallsIn(m.raw.content)
  }

  lemma {:induction false} CallsInUses(calls: seq<Call>)
    ensures CallsIn(UseBlocks(calls)) == calls
  {
    if calls != [] {
      CallsInUses(calls[1..]);
      assert UseBlocks(calls)[1..] == UseBlocks(calls[1..]);
    }
  }

  lemma CallsInMessage(m: Message)
    requires m.Assistant? && OwnCalls(m)
    ensures CallsIn(ApiMessageOf(m).content.blocks) == m.calls
  {
    if !m.raw.FromAnthropic? {
      CallsInUses(m.calls);
      var blocks := AssistantBlocks(m.text, m.calls);
      assert m.text != "" ==> blocks[1..] == UseBlocks(m.calls);
      assert m.text == "" ==> blocks == UseBlocks(m.calls);
    }
  }

  /** The protocol of the Messages API: the roles alternate from user to user,
      and each message of results answers, in order, the calls of the
      assistant message before it. */
  predicate Alternates(out: seq<ApiMessage>) {
    && |out| % 2 == 1
    && (forall i | 0 <= i < |out| :: out[i].role == if i % 2 == 0 then RoleUser else RoleAssistant)
    && (forall i | 0 < i < |out| :: out[i].content.Blocks?)
    && forall i | 0 < i < |out| && i % 2 == 0 :: ResultsFor(out[i].content.blocks, CallsIn(out[i - 1].content.blocks))
  }

  predicate ResultsFor(blocks: seq<Block>, calls: seq<Call>) {
    |blocks| == |calls| && forall k | 0 <= k < |calls| :: blocks[k].ToolResult? && blocks[k].id == calls[k].id
  }

  /** A paired conversation alternates roles and keeps its pairing, also where
      a raw response is replayed unchanged. */
  lemma AnthropicIsAnswered(ms: seq<Message>)
    requires Paired(ms) && forall m | m in ms :: OwnCalls(m)
    ensures Alternates(ToAnthropicMessages(ms))
  {
    var out := ToAnthropicMessages(ms);
    forall i: nat | 0 < i < |ms|
      ensures out[i].content.Blocks? && out[i].role == if i % 2 == 0 then RoleUser else RoleAssistant
      ensures i % 2 == 0 ==>
                out[i - 1].content.Blocks? && ResultsFor(out[i].content.blocks, CallsIn(out[i - 1].content.blocks))
    {
      AnthropicAnswersAt(ms, i);
    }
  }

  lemma AnthropicAnswersAt(ms: seq<Message>, i: nat)
    requires Paired(ms) && (forall m | m in ms :: OwnCalls(m)) && 0 < i < |ms|
    ensures
      var out := ToAnthropicMessages(ms);
      && out[i].content.Blocks? && out[i].role == (if i % 2 == 0 then RoleUser else RoleAssistant)
      && (i % 2 == 0 ==>
            out[i - 1].content.Blocks? && ResultsFor(out[i].content.blocks, CallsIn(out[i - 1].content.blocks)))
  {
    assert PairedAt(ms, i);
    if i % 2 == 0 {
      assert PairedAt(ms, i - 1);
      assert ms[i - 1] in ms && OwnCalls(ms[i - 1]);
      CallsInMessage(ms[i - 1]);
      ResultsForCalls(ms[i - 1].calls, ms[i].results);
    }
  }

  lemma ResultsForCalls(calls: seq<Call>, results: seq<Result>)
    requires Matches(calls, results)
    ensures ResultsFor(ResultBlocks(results), calls)
  {
  }

  // The way back, from the API messages alone.

  function FirstText(blocks: seq<Block>): string {
    if blocks != [] && blocks[0].TextBlock? then blocks[0].text else ""
  }

  /** The results in a message, which come in the order of the calls of the
      message before it and so have their names. */
  function ResultsIn(blocks: seq<Block>, calls: seq<Call>): seq<Result> {
    seq(|blocks|, i requires 0 <= i < |blocks| =>
      match blocks[i]
      case ToolResult(id, output, isError) => Result(id, if i < |calls| then calls[i].name else "", output, isError)
      case _ => Result("", "", "", false))
  }

  function CallsBefore(out: seq<ApiMessage>, i: nat): seq<Call>
    requires i < |out|
  {
    if i == 0 || out[i - 1].content.Plain? then [] else CallsIn(out[i - 1].content.blocks)
  }

  function ReadMessage(out: seq<ApiMessage>, i: nat): Message
    requires i < |out|
  {
    match out[i].content
    case Plain(text) => User(text)
    case Blocks(blocks) =>
      if out[i].role == RoleUser then Tool(ResultsIn(blocks, CallsBefore(out, i)))
      else Assistant(FirstText(blocks), CallsIn(blocks), FromAnthropic(blocks))
  }

  /** What the encoding keeps of a message: everything of a prompt and of the
      results, the text and the calls of an answer, and the whole raw content
      of one that is replayed. */
  predicate Keeps(m: Message, read: Message) {
    match m
    case User(_) => read == m
    case Tool(_) => read == m
    case Assistant(text, calls, raw) =>
      && read.Assistant? && read.calls == calls
      && if raw.FromAnthropic? then read.raw == raw else read.text == text
  }

  lemma AssistantReads(m: Message)
    requires m.Assistant? && !m.raw.FromAnthropic?
    ensures ApiMessageOf(m).role == RoleAssistant && ApiMessageOf(m).content.Blocks?
    ensures FirstText(ApiMessageOf(m).content.blocks) == m.text
    ensures CallsIn(ApiMessageOf(m).content.blocks) == m.calls
  {
    CallsInMessage(m);
  }

  lemma ResultsRead(calls: seq<Call>, results: seq<Result>)
    requires Matches(calls, results)
    ensures
      var m := ApiMessageOf(Tool(results));
      m.role == RoleUser && m.content.Blocks? && ResultsIn(m.content.blocks, calls) == results
  {
  }

  /** The prompt, the calls, the texts, the outputs and which of them are
      errors can be read back, and a raw response is replayed as it was. */
  lemma AnthropicRoundTrip(ms: seq<Message>, i: nat)
    requires Paired(ms) && (forall m | m in ms :: OwnCalls(m)) && i < |ms|
    ensures |ToAnthropicMessages(ms)| == |ms|
    ensures Keeps(ms[i], ReadMessage(ToAnthropicMessages(ms), i))
  {
    assert ms[i] in ms && OwnCalls(ms[i]);
    if i > 0 {
      assert PairedAt(ms, i);
      if ms[i].Assistant? {
        CallsInMessage(ms[i]);
        if !ms[i].raw.FromAnthropic? {
          AssistantReads(ms[i]);
        }
      } else {
        assert PairedAt(ms, i - 1);
        assert ms[i - 1] in ms && OwnCalls(ms[i - 1]);
        CallsInMessage(ms[i - 1]);
        ResultsRead(ms[i - 1].calls, ms[i].results);
      }
    }
  }

  // -------------------------------------------------------------- responses

  function AnthropicStop(reason: string): Stop {
    if reason == "tool_use" then ToolUse_
    else if reason == "max_tokens" then MaxTokens
    else if reason == "refusal" then Refusal
    else End
  }

  function TextsIn(blocks: seq<Block>): seq<string> {
    if blocks == [] then []
    else (if blocks[0].TextBlock? then [blocks[0].text] else []) + TextsIn(blocks[1..])
  }

  /** The reply that complete makes of a Messages API response; trimmed joins
      the texts and trims them. */
  function AnthropicReply(content: seq<Block>, reason: string, trimmed: seq<string> -> string): Reply {
    Reply(trimmed(TextsIn(content)), CallsIn(content), AnthropicStop(reason), FromAnthropic(content))
  }

  function ChatStop(calls: seq<ToolCall>, reason: string): Stop {
    if calls != [] then ToolUse_
    else if reason == "tool_calls" then ToolUse_
    else if reason == "length" then MaxTokens
    else if reason == "content_filter" then Refusal
    else End
  }

  /** The reply that complete makes of a chat-completions choice. */
  function ChatReply(c: JsonCodec, text: string, calls: seq<ToolCall>, reason: string): Reply {
    Reply(text, Decoded(c, calls), ChatStop(calls, reason), FromOpenAI)
  }

  /** The loop goes on after a response with tool calls, unless the model
      declined or, with the Messages API, ran out of tokens. A chat-completions
      response with tool calls never reads as cut off, whatever its finish
      reason: there the guard of the loop cannot act. */
  lemma CutOffCalls(c: JsonCodec, content: seq<Block>, reason: string, trimmed: seq<string> -> string,
                    text: string, calls: seq<ToolCall>, finish: string)
    ensures GoesOn(Replied(AnthropicReply(content, reason, trimmed))) <==>
            CallsIn(content) != [] && reason != "refusal" && reason != "max_tokens"
    ensures GoesOn(Replied(ChatReply(c, text, calls, finish))) <==> calls != []
    ensures reason == "max_tokens" && CallsIn(content) != [] ==>
              EndOf(Replied(AnthropicReply(content, reason, trimmed))) == Failed(CutOff)
  {
    assert Decoded(c, calls) == [] <==> calls == [];
  }

  /** What the loop makes of an answer that does not go on, by the reason that
      the provider gives: it declined, it was cut off, or it is the summary. */
  lemma WhatEndsARun(c: JsonCodec, content: seq<Block>, reason: string, trimmed: seq<string> -> string,
                     text: string, finish: string)
    ensures
      var o := Replied(AnthropicReply(content, reason, trimmed));
      !GoesOn(o) ==>
        EndOf(o) ==
        if reason == "refusal" then Failed(Declined)
        else if CallsIn(content) != [] then Failed(CutOff)
        else if reason == "max_tokens" then Failed(OutOfTokens)
        else Summary(trimmed(TextsIn(content)))
    ensures
      var o := Replied(ChatReply(c, text, [], finish));
      && !GoesOn(o)
      && EndOf(o) ==
         if finish == "content_filter" then Failed(Declined)
         else if finish == "length" then Failed(OutOfTokens)
         else Summary(text)
  {
    assert Decoded(c, []) == [];
  }

  /** The calls of a response, block by block. */
  lemma {:induction false} OneMoreBlock(blocks: seq<Block>, b: Block)
    ensures CallsIn(blocks + [b]) == CallsIn(blocks) + if b.ToolUse? then [Call(b.id, b.name, b.input)] else []
  {
    var more := blocks + [b];
    if blocks == [] {
      assert more == [b] && more[1..] == [];
    } else {
      OneMoreBlock(blocks[1..], b);
      assert more[1..] == blocks[1..] + [b] && more[0] == blocks[0];
    }
  }

  /** Its texts, likewise. */
  lemma {:induction false} OneMoreText(blocks: seq<Block>, b: Block)
    ensures TextsIn(blocks + [b]) == TextsIn(blocks) + if b.TextBlock? then [b.text] else []
  {
    var more := blocks + [b];
    if blocks == [] {
      assert more == [b] && more[1..] == [];
    } else {
      OneMoreText(blocks[1..], b);
      assert more[1..] == blocks[1..] + [b] && more[0] == blocks[0];
    }
  }

  /** The calls of a chat-completions answer: no arguments are the empty
      object, and malformed ones an input that the tool rejects. */
  lemma ChatCallsAre(c: JsonCodec, text: string, calls: seq<ToolCall>, finish: string, i: nat)
    requires i < |calls|
    ensures
      var r, a := ChatReply(c, text, calls, finish), calls[i].arguments;
      && |r.calls| == |calls| && r.text == text
      && r.calls[i].id == calls[i].id && r.calls[i].name == calls[i].name
      && (a != "" && c.parse(a).Some? ==> Some(r.calls[i].input) == c.parse(a))
      && (a == "" && c.parse("{}").Some? ==> Some(r.calls[i].input) == c.parse("{}"))
      && (a != "" && c.parse(a).None? ==> r.calls[i].input == c.malformed(a))
  {
  }

  /** A reply of one of the two providers. */
  ghost predicate Genuine(c: JsonCodec, r: Reply) {
    || (exists content, reason, trimmed :: r == AnthropicReply(content, reason, trimmed))
    || (exists text, calls, reason :: r == ChatReply(c, text, calls, reason))
  }

  lemma {:induction false} TranscriptOwnCalls(c: JsonCodec, prompt: string, turns: seq<Turn>)
    requires forall t | t in turns :: Genuine(c, t.reply)
    ensures forall m | m in Transcript(prompt, turns) :: OwnCalls(m)
  {
    if turns != [] {
      TranscriptOwnCalls(c, prompt, turns[..|turns| - 1]);
      assert Genuine(c, Last(turns).reply);
    }
  }

  lemma RequestOwnCalls(c: JsonCodec, job: Job, log: seq<Exchange>, turns: seq<Turn>, uses: seq<Use>, r: Answer, k: nat)
    requires ToolRun(job, log, turns, uses, r) && k < |log| && log[k].mode == WithTools
    requires forall t | t in turns :: Genuine(c, t.reply)
    ensures forall m | m in log[k].messages :: OwnCalls(m)
  {
    RequestIs(job, log, turns, uses, r, k);
    TranscriptOwnCalls(c, job.prompt, turns[..k]);
  }

  /** Every request that a run sends with tools, to either provider, keeps that
      provider's protocol, and tells the Messages API all that was said. */
  lemma RunKeepsBothProtocols(c: JsonCodec, system: string, job: Job, log: seq<Exchange>, turns: seq<Turn>,
                              uses: seq<Use>, r: Answer, k: nat)
    requires ToolRun(job, log, turns, uses, r) && k < |log| && log[k].mode == WithTools
    requires forall t | t in turns :: Genuine(c, t.reply)
    ensures Answers([SystemMessage(system)] + Chat(c, log[k].messages), [])
    ensures Alternates(ToAnthropicMessages(log[k].messages))
    ensures forall i: nat | i < |log[k].messages| ::
      Keeps(log[k].messages[i], ReadMessage(ToAnthropicMessages(log[k].messages), i))
  {
    RequestsArePaired(job, log, turns, uses, r, k);
    ChatIsAnswered(c, system, log[k].messages);
    RequestOwnCalls(c, job, log, turns, uses, r, k);
    AnthropicIsAnswered(log[k].messages);
    forall i: nat | i < |log[k].messages|
      ensures Keeps(log[k].messages[i], ReadMessage(ToAnthropicMessages(log[k].messages), i))
    {
      AnthropicRoundTrip(log[k].messages, i);
    }
  }
}
