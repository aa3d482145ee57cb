/** Server-sent events: the agent's printer and the two parsers that read its
    stream chunk by chunk, in the browser and in the backend. Chunks are texts;
    JSON is a pair of inverse functions. */
module Sse {
  import opened Common

  const BLANK_LINE := "\n\n"
  const DATA := "data: "
  const EVENT := "event: "
  const DONE_LINE := "event: done\n"

  predicate StartsWith(s: string, prefix: string) {
    prefix <= s
  }

  /** indexOf: the first place of pat in s, or -1. */
  function IndexOf(s: string, pat: string): (i: int)
    requires pat != ""
    ensures -1 <= i <= |s| - |pat| || i == -1
  {
    if |s| < |pat| then -1
    else if StartsWith(s, pat) then 0
    else
      var i := IndexOf(s[1..], pat);
      if i < 0 then -1 else i + 1
  }

  /** pat stands at i in s. */
  predicate At(s: string, pat: string, i: nat) {
    i + |pat| <= |s| && s[i..i + |pat|] == pat
  }

  lemma {:induction false} IndexOfIsFirst(s: string, pat: string)
    requires pat != ""
    ensures
      var i := IndexOf(s, pat);
      && (i >= 0 ==> At(s, pat, i) && forall j: nat | j < i :: !At(s, pat, j))
      && (i < 0 ==> forall j: nat :: !At(s, pat, j))
  {
    if |s| >= |pat| && !StartsWith(s, pat) {
      IndexOfIsFirst(s[1..], pat);
      forall j: nat | j > 0
        ensures At(s, pat, j) <==> At(s[1..], pat, j - 1)
      {
        if j + |pat| <= |s| {
          assert s[1..][j - 1..j - 1 + |pat|] == s[j..j + |pat|];
        }
      }
      assert !At(s, pat, 0) by {
        assert s[0..|pat|] == s[..|pat|];
      }
    }
  }

  // ------------------------------------------- the stream, character by character

  /** What is complete, and what still waits for its blank line. */
  datatype Cut = Cut(frames: seq<string>, rest: string)

  const NOTHING := Cut([], "")

  /** A frame ends where the text so far ends in an empty line. */
  function FeedChar(c: Cut, ch: char): Cut {
    var text := c.rest + [ch];
    if |text| >= 2 && text[|text| - 2] == '\n' && ch == '\n' then Cut(c.frames + [text[..|text| - 2]], "")
    else Cut(c.frames, text)
  }

  function Feed(c: Cut, s: string): Cut {
    if s == "" then c else FeedChar(Feed(c, s[..|s| - 1]), Last(s))
  }

  function Frames(s: string): Cut {
    Feed(NOTHING, s)
  }

  lemma {:induction false} FeedSplits(c: Cut, a: string, b: string)
    ensures Feed(c, a + b) == Feed(Feed(c, a), b)
  {
    if b == "" {
      assert a + b == a;
    } else {
      FeedSplits(c, a, b[..|b| - 1]);
      assert (a + b)[..|a + b| - 1] == a + b[..|b| - 1];
    }
  }

  lemma {:induction false} FeedKeepsFrames(fs: seq<string>, rest: string, s: string)
    ensures Feed(Cut(fs, rest), s) == Cut(fs + Feed(Cut([], rest), s).frames, Feed(Cut([], rest), s).rest)
  {
    if s == "" {
      assert fs + [] == fs;
    } else {
      FeedKeepsFrames(fs, rest, s[..|s| - 1]);
    }
  }

  predicate NoBlankLine(s: string) {
    forall i | 0 <= i < |s| - 1 :: !(s[i] == '\n' && s[i + 1] == '\n')
  }

  lemma {:induction false} FeedUnfinished(fs: seq<string>, s: string)
    requires NoBlankLine(s)
    ensures Feed(Cut(fs, ""), s) == Cut(fs, s)
  {
    if s != "" {
      FeedUnfinished(fs, s[..|s| - 1]);
      assert s == s[..|s| - 1] + [Last(s)];
    }
  }

  /** A frame and its blank line. */
  lemma FeedFrame(fs: seq<string>, frame: string)
    requires NoBlankLine(frame + "\n")
    ensures Feed(Cut(fs, ""), frame + BLANK_LINE) == Cut(fs + [frame], "")
  {
    var line := frame + "\n";
    var whole := frame + BLANK_LINE;
    FeedUnfinished(fs, line);
    assert |whole| == |line| + 1 && Last(whole) == '\n';
    assert whole[..|whole| - 1] == line;
    assert Feed(Cut(fs, ""), whole) == FeedChar(Cut(fs, line), '\n');
    var text := line + ['\n'];
    assert text[|text| - 2] == '\n' && text[..|text| - 2] == frame;
  }

  lemma BlankLineAt(s: string, i: nat)
    ensures At(s, BLANK_LINE, i) <==> i + 1 < |s| && s[i] == '\n' && s[i + 1] == '\n'
  {
    if i + 1 < |s| {
      assert s[i..i + 2] == [s[i], s[i + 1]];
    }
  }

  lemma IndexOfBlankLine(s: string)
    ensures
      var i := IndexOf(s, BLANK_LINE);
      if i < 0 then NoBlankLine(s) else s == s[..i] + BLANK_LINE + s[i + 2..] && NoBlankLine(s[..i] + "\n")
  {
    IndexOfIsFirst(s, BLANK_LINE);
    var n := IndexOf(s, BLANK_LINE);
    forall i: nat | i < |s| - 1 && (n < 0 || i < n)
      ensures !(s[i] == '\n' && s[i + 1] == '\n')
    {
      BlankLineAt(s, i);
    }
    if n >= 0 {
      BlankLineAt(s, n);
      assert s == s[..n] + s[n..n + 2] + s[n + 2..];
      FirstBlankLine(s, n);
    }
  }

  lemma FirstBlankLine(s: string, n: nat)
    requires n + 1 < |s| && s[n] == '\n'
    requires forall i | 0 <= i < n :: !(s[i] == '\n' && s[i + 1] == '\n')
    ensures NoBlankLine(s[..n] + "\n")
  {
    var line := s[..n] + "\n";
    assert forall i | 0 <= i <= n :: line[i] == s[i];
  }

  /** The inner loop of both parsers, step by step. */
  lemma TakeFrame(fs: seq<string>, buffer: string)
    ensures
      var end := IndexOf(buffer, BLANK_LINE);
      Feed(Cut(fs, ""), buffer) ==
      if end < 0 then Cut(fs, buffer) else Feed(Cut(fs + [buffer[..end]], ""), buffer[end + 2..])
  {
    IndexOfBlankLine(buffer);
    var end := IndexOf(buffer, BLANK_LINE);
    if end < 0 {
      FeedUnfinished(fs, buffer);
    } else {
      FeedFrame(fs, buffer[..end]);
      FeedSplits(Cut(fs, ""), buffer[..end] + BLANK_LINE, buffer[end + 2..]);
    }
  }

  /** What waits in the buffer never has a blank line. */
  lemma {:induction false} RestHasNoBlankLine(seen: string)
    ensures NoBlankLine(Frames(seen).rest)
  {
    if seen != "" {
      var before := seen[..|seen| - 1];
      RestHasNoBlankLine(before);
      var rest := Frames(before).rest;
      assert Frames(seen) == FeedChar(Frames(before), Last(seen));
      assert forall i | 0 <= i < |rest| :: (rest + [Last(seen)])[i] == rest[i];
    }
  }

  /** So scanning it again with the next chunk finds what a character reader
      finds. */
  lemma Resume(seen: string, chunk: string)
    ensures Frames(seen + chunk) == Feed(Cut(Frames(seen).frames, ""), Frames(seen).rest + chunk)
  {
    var c := Frames(seen);
    RestHasNoBlankLine(seen);
    FeedSplits(NOTHING, seen, chunk);
    FeedUnfinished(c.frames, c.rest);
    FeedSplits(Cut(c.frames, ""), c.rest, chunk);
  }

  function Concat(chunks: seq<string>): string {
    if chunks == [] then "" else Concat(chunks[..|chunks| - 1]) + Last(chunks)
  }

  // ------------------------------------------------------------ the browser

  function Lines(s: string): seq<string>
    decreases |s|
  {
    var end := IndexOf(s, "\n");
    if end < 0 then [s] else [s[..end]] + Lines(s[end + 1..])
  }

  function DataLines(lines: seq<string>): seq<string> {
    if lines == [] then []
    else (if StartsWith(lines[0], DATA) then [lines[0][6..]] else []) + DataLines(lines[1..])
  }

  function JoinLines(lines: seq<string>): string {
    if lines == [] then "" else if |lines| == 1 then lines[0] else lines[0] + "\n" + JoinLines(lines[1..])
  }

  function Data(frame: string): string {
    JoinLines(DataLines(Lines(frame)))
  }

  /** A frame without data or with malformed data is skipped. */
  function EventOf<T>(frame: string, parse: string -> Option<T>): seq<T> {
    if Data(frame) == "" || parse(Data(frame)).None? then [] else [parse(Data(frame)).value]
  }

  function EventReader<T>(parse: string -> Option<T>): string -> seq<T> {
    frame => EventOf(frame, parse)
  }

  function Gather<T>(frames: seq<string>, read: string -> seq<T>): seq<T> {
    if frames == [] then [] else Gather(frames[..|frames| - 1], read) + read(Last(frames))
  }

  function EventsOf<T>(frames: seq<string>, parse: string -> Option<T>): seq<T> {
    Gather(frames, EventReader(parse))
  }

  lemma {:induction false} GatherAppend<T>(a: seq<string>, b: seq<string>, read: string -> seq<T>)
    ensures Gather(a + b, read) == Gather(a, read) + Gather(b, read)
  {
    if b == [] {
      assert a + b == a;
    } else {
      var before, whole := b[..|b| - 1], a + b;
      GatherAppend(a, before, read);
      assert whole[..|whole| - 1] == a + before && Last(whole) == Last(b);
      assert Gather(whole, read) == Gather(a + before, read) + read(Last(b));
    }
  }

  lemma GatherOne<T>(a: seq<string>, frame: string, read: string -> seq<T>)
    ensures Gather(a + [frame], read) == Gather(a, read) + read(frame)
  {
    assert (a + [frame])[..|a|] == a;
  }

  /** readEvents: however the text is cut into chunks, the events are those of
      the complete frames of the whole text. */
  method ReadEvents<T>(chunks: seq<string>, parse: string -> Option<T>) returns (events: seq<T>)
    ensures events == EventsOf(Frames(Concat(chunks)).frames, parse)
  {
    events := [];
    var buffer := "";
    for i := 0 to |chunks|
      invariant NoBlankLine(buffer) && buffer == Frames(Concat(chunks[..i])).rest
      invariant events == EventsOf(Frames(Concat(chunks[..i])).frames, parse)
    {
      ghost var seen := Concat(chunks[..i]);
      ghost var frames := Frames(seen).frames;
      assert chunks[..i + 1][..i] == chunks[..i];
      Resume(seen, chunks[i]);
      buffer := buffer + chunks[i];
      TakeFrame(frames, buffer);
      var end := IndexOf(buffer, BLANK_LINE);
      while end >= 0
        invariant end == IndexOf(buffer, BLANK_LINE)
        invariant Feed(Cut(frames, ""), buffer) == Frames(seen + chunks[i])
        invariant events == EventsOf(frames, parse)
        decreases |buffer|
      {
        var frame := buffer[..end];
        TakeFrame(frames, buffer);
        GatherOne(frames, frame, EventReader(parse));
        frames := frames + [frame];
        buffer := buffer[end + 2..];
        var data := Data(frame);
        if data != "" {
          var parsed := parse(data);
          if parsed.Some? {
            events := events + [parsed.value];
          }
        }
        end := IndexOf(buffer, BLANK_LINE);
      }
      TakeFrame(frames, buffer);
      IndexOfBlankLine(buffer);
    }
    assert chunks[..|chunks|] == chunks;
  }

  // ------------------------------------------------------------ the backend

  /** The commits a frame reports: commitOf is JSON.parse and the commit of
      the result, None where either fails. */
  function CommitOf(frame: string, commitOf: string -> Option<string>): seq<string> {
    if !StartsWith(frame, DONE_LINE) then []
    else
      var c := commitOf(frame[IndexOf(frame, DATA) + 6..]);
      if c.None? || c.value == "" then [] else [c.value]
  }

  function CommitReader(commitOf: string -> Option<string>): string -> seq<string> {
    frame => CommitOf(frame, commitOf)
  }

  function CommitsOf(frames: seq<string>, commitOf: string -> Option<string>): seq<string> {
    Gather(frames, CommitReader(commitOf))
  }

  /** watchDone: the transform, its buffer, and what it reported so far. */
  class DoneWatcher {
    const commitOf: string -> Option<string>
    var buffer: string
    var reported: seq<string>
    ghost var seen: string

    constructor (commitOf: string -> Option<string>)
      ensures Valid() && seen == "" && reported == []
      ensures this.commitOf == commitOf
    {
      this.commitOf := commitOf;
      buffer := "";
      reported := [];
      seen := "";
    }

    ghost predicate Valid()
      reads this
    {
      && NoBlankLine(buffer) && buffer == Frames(seen).rest
      && reported == CommitsOf(Frames(seen).frames, commitOf)
    }

    /** The body of the loop, for one frame. */
    method Report(frame: string)
      modifies this`reported
      ensures reported == old(reported) + CommitOf(frame, commitOf)
    {
      if StartsWith(frame, DONE_LINE) {
        var commit := commitOf(frame[IndexOf(frame, DATA) + 6..]);
        if commit.Some? && commit.value != "" {
          reported := reported + [commit.value];
        }
      }
    }

    /** Passes a chunk on as it came. */
    method Transform(chunk: string) returns (out: string)
      requires Valid()
      modifies this
      ensures Valid() && seen == old(seen) + chunk
      ensures out == chunk
    {
      ghost var frames := Frames(seen).frames;
      Resume(seen, chunk);
      seen := seen + chunk;
      buffer := buffer + chunk;
      var end := IndexOf(buffer, BLANK_LINE);
      while end >= 0
        invariant end == IndexOf(buffer, BLANK_LINE)
        invariant Feed(Cut(frames, ""), buffer) == Frames(seen)
        invariant reported == CommitsOf(frames, commitOf)
        invariant seen == old(seen) + chunk
        decreases |buffer|
      {
        var frame := buffer[..end];
        TakeFrame(frames, buffer);
        GatherOne(frames, frame, CommitReader(commitOf));
        frames := frames + [frame];
        buffer := buffer[end + 2..];
        Report(frame);
        end := IndexOf(buffer, BLANK_LINE);
      }
      TakeFrame(frames, buffer);
      IndexOfBlankLine(buffer);
      out := chunk;
    }
  }

  // ---------------------------------------------------------- the round trip

  /** JSON and the events it carries. */
  datatype Codec<!T> = Codec(
    stringify: T -> string,
    parse: string -> Option<T>,
    typeOf: T -> string,
    commit: T -> string,
    commitOf: string -> Option<string>)

  /** stringify and parse are inverse, and neither a type nor an encoding has
      a raw newline. */
  ghost predicate Faithful<T(!new)>(c: Codec<T>) {
    forall e: T ::
      && c.parse(c.stringify(e)) == Some(e)
      && c.commitOf(c.stringify(e)) == Some(c.commit(e))
      && c.stringify(e) != ""
      && '\n' !in c.stringify(e)
      && '\n' !in c.typeOf(e)
  }

  function Frame(kind: string, json: string): string {
    EVENT + kind + "\n" + DATA + json
  }

  /** The text that send writes for each event. */
  function Print<T>(c: Codec<T>, es: seq<T>): string {
    if es == [] then ""
    else Print(c, es[..|es| - 1]) + Frame(c.typeOf(Last(es)), c.stringify(Last(es))) + BLANK_LINE
  }

  function FramesFor<T>(c: Codec<T>, es: seq<T>): seq<string> {
    if es == [] then []
    else FramesFor(c, es[..|es| - 1]) + [Frame(c.typeOf(Last(es)), c.stringify(Last(es)))]
  }

  lemma {:induction false} IndexOfSkips(x: string, y: string, pat: string)
    requires pat != "" && pat[0] !in x
    ensures IndexOf(x + y, pat) == if IndexOf(y, pat) < 0 then -1 else |x| + IndexOf(y, pat)
  {
    if x == "" {
      assert x + y == y;
    } else {
      IndexOfSkips(x[1..], y, pat);
      assert (x + y)[1..] == x[1..] + y;
    }
  }

  /** A printed frame has no blank line before its own. */
  lemma FrameHasNoBlankLine(kind: string, json: string)
    requires '\n' !in kind && '\n' !in json
    ensures NoBlankLine(Frame(kind, json) + "\n")
  {
    var head, body := EVENT + kind, DATA + json;
    assert '\n' !in head && '\n' !in body;
    assert Frame(kind, json) + "\n" == head + "\n" + body + "\n";
  }

  lemma FrameLines(kind: string, json: string)
    requires '\n' !in kind && '\n' !in json
    ensures Lines(Frame(kind, json)) == ["event: " + kind, "data: " + json]
  {
    var head, body := EVENT + kind, DATA + json;
    IndexOfSkips(body, "", "\n");
    assert body + "" == body;
    IndexOfSkips(head, "\n" + body, "\n");
    assert Frame(kind, json) == head + ("\n" + body);
    assert (head + ("\n" + body))[|head| + 1..] == body;
  }

  /** Splitting into lines undoes joining them. */
  lemma {:induction false} LinesOfJoined(lines: seq<string>)
    requires lines != [] && forall l | l in lines :: '\n' !in l
    ensures Lines(JoinLines(lines)) == lines
  {
    var first := lines[0];
    assert first in lines;
    if |lines| == 1 {
      IndexOfSkips(first, "", "\n");
      assert first + "" == first;
    } else {
      var rest := JoinLines(lines[1..]);
      LinesOfJoined(lines[1..]);
      IndexOfSkips(first, "\n" + rest, "\n");
      assert JoinLines(lines) == first + ("\n" + rest);
      assert (first + ("\n" + rest))[|first| + 1..] == rest;
    }
  }

  /** The data of a frame are its data lines, without that mark. */
  lemma {:induction false} OneMoreDataLine(lines: seq<string>, l: string)
    ensures DataLines([]) == []
    ensures DataLines(lines + [l]) == DataLines(lines) + if "data: " <= l then [l[6..]] else []
  {
    if lines == [] {
      assert lines + [l] == [l] && [l][1..] == [];
    } else {
      OneMoreDataLine(lines[1..], l);
      assert (lines + [l])[1..] == lines[1..] + [l];
    }
  }

  /** So data in several lines are those lines, joined again. */
  lemma DataOfLines(lines: seq<string>)
    requires lines != [] && forall l | l in lines :: '\n' !in l
    ensures Data(JoinLines(lines)) == JoinLines(DataLines(lines))
  {
    LinesOfJoined(lines);
  }

  lemma {:induction false} JoinedLines(lines: seq<string>, l: string)
    ensures JoinLines([]) == "" && JoinLines([l]) == l
    ensures lines != [] ==> JoinLines(lines + [l]) == JoinLines(lines) + "\n" + l
  {
    if |lines| == 1 {
      assert (lines + [l])[1..] == [l];
    } else if |lines| > 1 {
      JoinedLines(lines[1..], l);
      assert (lines + [l])[1..] == lines[1..] + [l];
    }
  }

  lemma FrameData(kind: string, json: string)
    requires '\n' !in kind && '\n' !in json
    ensures Data(Frame(kind, json)) == json
  {
    var head, body := EVENT + kind, DATA + json;
    FrameLines(kind, json);
    assert head[0] == 'e' && body[..6] == DATA && body[6..] == json;
    OneDataLine(head, body);
  }

  lemma OneDataLine(head: string, body: string)
    requires !StartsWith(head, DATA) && StartsWith(body, DATA)
    ensures JoinLines(DataLines([head, body])) == body[6..]
  {
    assert [head, body][1..] == [body] && [body][1..] == [];
    assert DataLines([body]) == [body[6..]];
    assert DataLines([head, body]) == [body[6..]];
  }

  lemma {:induction false} FramesOfPrint<T(!new)>(c: Codec<T>, es: seq<T>)
    requires Faithful(c)
    ensures Frames(Print(c, es)) == Cut(FramesFor(c, es), "")
  {
    if es != [] {
      var n := |es| - 1;
      var frame := Frame(c.typeOf(es[n]), c.stringify(es[n]));
      FramesOfPrint(c, es[..n]);
      FeedSplits(NOTHING, Print(c, es[..n]), frame + BLANK_LINE);
      FrameHasNoBlankLine(c.typeOf(es[n]), c.stringify(es[n]));
      FeedFrame(FramesFor(c, es[..n]), frame);
      assert Print(c, es) == Print(c, es[..n]) + (frame + BLANK_LINE);
    }
  }

  lemma {:induction false} EventsOfFrames<T(!new)>(c: Codec<T>, es: seq<T>)
    requires Faithful(c)
    ensures EventsOf(FramesFor(c, es), c.parse) == es
  {
    if es != [] {
      var n := |es| - 1;
      EventsOfFrames(c, es[..n]);
      FrameData(c.typeOf(es[n]), c.stringify(es[n]));
      var fs := FramesFor(c, es[..n]);
      assert FramesFor(c, es)[..|fs|] == fs;
      assert es == es[..n] + [es[n]];
    }
  }

  /** Whatever the chunks, the browser sees exactly the events sent. */
  lemma ReadsBack<T(!new)>(c: Codec<T>, es: seq<T>, chunks: seq<string>)
    requires Faithful(c) && Concat(chunks) == Print(c, es)
    ensures EventsOf(Frames(Concat(chunks)).frames, c.parse) == es
  {
    FramesOfPrint(c, es);
    EventsOfFrames(c, es);
  }

  /** And from a stream that is cut off, those whose frames are complete. */
  lemma ReadsPrefix<T(!new)>(c: Codec<T>, es: seq<T>, read: string, lost: string)
    requires Faithful(c) && read + lost == Print(c, es)
    ensures EventsOf(Frames(read).frames, c.parse) <= es
  {
    FramesOfPrint(c, es);
    EventsOfFrames(c, es);
    FeedSplits(NOTHING, read, lost);
    FeedKeepsFrames(Frames(read).frames, Frames(read).rest, lost);
    GatherAppend(Frames(read).frames, Feed(Cut([], Frames(read).rest), lost).frames, EventReader(c.parse));
  }

  /** The commits of the done events, without the empty ones. */
  function DoneCommits<T>(c: Codec<T>, es: seq<T>): seq<string> {
    if es == [] then []
    else
      DoneCommits(c, es[..|es| - 1]) +
      if c.typeOf(Last(es)) == "done" && c.commit(Last(es)) != "" then [c.commit(Last(es))] else []
  }

  lemma DoneFrame(kind: string, json: string)
    requires '\n' !in kind
    ensures StartsWith(Frame(kind, json), DONE_LINE) <==> kind == "done"
  {
    var f := Frame(kind, json);
    assert f[7 + |kind|] == '\n' && forall i | 0 <= i < |kind| :: f[7 + i] == kind[i];
    if StartsWith(f, DONE_LINE) {
      assert forall i | 0 <= i < 12 :: f[i] == DONE_LINE[i];
      assert f[11] == '\n' && f[7] == 'd' && f[8] == 'o' && f[9] == 'n' && f[10] == 'e';
      assert |kind| == 4;
    }
    if kind == "done" {
      assert f[..12] == DONE_LINE;
    }
  }

  lemma DoneData(json: string)
    ensures
      var f := Frame("done", json);
      f[IndexOf(f, DATA) + 6..] == json
  {
    var tail := DATA + json;
    var middle := "done\n" + tail;
    assert StartsWith(tail, DATA);
    IndexOfSkips("one\n", tail, DATA);
    assert middle[1..] == "one\n" + tail && middle[1] == 'o';
    assert !StartsWith(middle, DATA);
    IndexOfSkips(EVENT, middle, DATA);
    assert Frame("done", json) == EVENT + middle;
    assert (EVENT + middle)[18..] == json;
  }

  lemma {:induction false} CommitsOfFrames<T(!new)>(c: Codec<T>, es: seq<T>)
    requires Faithful(c)
    ensures CommitsOf(FramesFor(c, es), c.commitOf) == DoneCommits(c, es)
  {
    if es != [] {
      var n := |es| - 1;
      CommitsOfFrames(c, es[..n]);
      DoneFrame(c.typeOf(es[n]), c.stringify(es[n]));
      DoneData(c.stringify(es[n]));
      var fs := FramesFor(c, es[..n]);
      assert FramesFor(c, es)[..|fs|] == fs;
    }
  }

  /** The backend forwards the printed stream in chunks of any size and reports
      exactly the commits of the done events, in order. */
  method Watch<T(!new)>(chunks: seq<string>, commitOf: string -> Option<string>, ghost c: Codec<T>, ghost es: seq<T>)
    returns (forwarded: seq<string>, reported: seq<string>)
    requires Faithful(c) && c.commitOf == commitOf && Concat(chunks) == Print(c, es)
    ensures forwarded == chunks
    ensures reported == DoneCommits(c, es)
  {
    forwarded := [];
    var watcher := new DoneWatcher(commitOf);
    for i := 0 to |chunks|
      invariant fresh(watcher) && watcher.Valid() && watcher.commitOf == commitOf
      invariant watcher.seen == Concat(chunks[..i])
      invariant forwarded == chunks[..i]
    {
      assert chunks[..i + 1][..i] == chunks[..i];
      var out := watcher.Transform(chunks[i]);
      forwarded := forwarded + [out];
    }
    assert chunks[..|chunks|] == chunks;
    FramesOfPrint(c, es);
    CommitsOfFrames(c, es);
    reported := watcher.reported;
  }
}
