/** The completion client of services/groq.ts: a buffered `chat` call and a
    streaming `streamChat` call that reads `data: ` lines from the response body. */
module GroqService {
  import opened Wrappers
  import opened Strings
  import opened Completions

  const DefaultTemperatureTenths: nat := 7
  const NoResponsePlaceholder := "No response generated"
  const DataPrefix := "data: "
  const DoneSentinel := "[DONE]"

  /** The shape of the `messages` both calls send: a `system` entry first exactly when
      the system prompt is truthy, then exactly one `user` entry carrying `message`. */
  predicate ConversationFor(messages: seq<Message>, message: string, systemPrompt: Option<string>) {
    && 1 <= |messages| <= 2
    && messages[|messages| - 1] == Message(User, message)
    && (|messages| == 2 <==> Truthy(systemPrompt))
    && (|messages| == 2 ==> messages[0] == Message(System, systemPrompt.value))
  }

  /** The request both calls POST, differing only in the `stream` flag. */
  predicate IsGroqRequest(req: ChatRequest, key: string, message: string, systemPrompt: Option<string>, stream: bool) {
    && req.url == Endpoint
    && req.authorization == Bearer(key)
    && req.model == ModelName
    && ConversationFor(req.messages, message, systemPrompt)
    && req.temperatureTenths == DefaultTemperatureTenths
    && req.maxTokens == MaxTokens
    && req.stream == Some(stream)
  }

  /** Builds `messages` by pushing the optional system entry, then the user entry. */
  method BuildMessages(message: string, systemPrompt: Option<string>) returns (messages: seq<Message>)
    ensures ConversationFor(messages, message, systemPrompt)
  {
    messages := [];
    if Truthy(systemPrompt) {
      messages := messages + [Message(System, systemPrompt.value)];
    }
    messages := messages + [Message(User, message)];
  }

  /** How `chat` turns the outcome of its request into an answer or an error. */
  function ChatReply(outcome: FetchOutcome): (r: Result<string, ServiceError>)
    ensures outcome.Rejected? ==> r == Failure(NetworkError(outcome.reason))
    ensures outcome.Responded? && !outcome.response.Ok() ==>
      r == Failure(ApiError(outcome.response.status, Some(UpstreamDetail(outcome.response.json))))
    ensures outcome.Responded? && outcome.response.Ok() ==>
      r == ReplyContent(outcome.response.json, NoResponsePlaceholder)
    ensures r.Success? ==> r.value != ""
  {
    match outcome
    case Rejected(reason) => Failure(NetworkError(reason))
    case Responded(response) =>
      if !response.Ok() then Failure(ApiError(response.status, Some(UpstreamDetail(response.json))))
      else ReplyContent(response.json, NoResponsePlaceholder)
  }

  /** `GroqService.chat`: without a truthy stored key it throws before any request;
      otherwise it sends one non-streaming request and interprets the reply. */
  method Chat(message: string, systemPrompt: Option<string>, storedKey: Option<string>,
              fetch: ChatRequest -> FetchOutcome)
    returns (result: Result<string, ServiceError>, sent: seq<ChatRequest>)
    ensures !Truthy(storedKey) ==> result == Failure(ApiKeyNotConfigured) && sent == []
    ensures Truthy(storedKey) ==>
      && |sent| == 1
      && IsGroqRequest(sent[0], storedKey.value, message, systemPrompt, false)
      && result == ChatReply(fetch(sent[0]))
  {
    if !Truthy(storedKey) {
      return Failure(ApiKeyNotConfigured), [];
    }
    var messages := BuildMessages(message, systemPrompt);
    var request := ChatRequest(Endpoint, Bearer(storedKey.value), ModelName, messages,
                               DefaultTemperatureTenths, MaxTokens, Some(false));
    sent := [request];
    var outcome := fetch(request);
    if outcome.Rejected? {
      return Failure(NetworkError(outcome.reason)), sent;
    }
    var response := outcome.response;
    if !response.Ok() {
      return Failure(ApiError(response.status, Some(UpstreamDetail(response.json)))), sent;
    }
    result := ReplyContent(response.json, NoResponsePlaceholder);
  }

  // ---------------------------------------------------------------------------
  // Streaming

  /** What one line of the body does to the accumulated answer. */
  datatype LineEffect = Ignore | Finish | Emit(fragment: string)

  /** The meaning of one line: a `data: [DONE]` line finishes the stream; a `data: `
      line whose payload decodes to non-empty content emits it; every other line
      (no `data: ` prefix, a payload that fails to decode, empty content) is ignored.
      `decode` stands for `JSON.parse` followed by `choices[0]?.delta?.content || ''`:
      None when either throws. */
  function ClassifyLine(line: string, decode: string -> Option<string>): (e: LineEffect)
    ensures e == Finish <==> line == DataPrefix + DoneSentinel
    ensures e.Emit? <==>
      && StartsWith(line, DataPrefix)
      && line[|DataPrefix|..] != DoneSentinel
      && decode(line[|DataPrefix|..]).Some?
      && decode(line[|DataPrefix|..]).value != ""
    ensures e.Emit? ==> e.fragment == decode(line[|DataPrefix|..]).value
  {
    if StartsWith(line, DataPrefix) then
      var data := line[|DataPrefix|..];
      assert line == DataPrefix + data;
      if data == DoneSentinel then Finish
      else
        match decode(data)
        case Some(content) => if content != "" then Emit(content) else Ignore
        case None => Ignore
    else
      assert !StartsWith(DataPrefix + DoneSentinel, DataPrefix) ==> false;
      Ignore
  }

  /** The result of reading a run of lines: the fragments handed to `onChunk`, in
      order, and whether a `[DONE]` line stopped the reading. */
  datatype Scan = Scan(fragments: seq<string>, finished: bool)

  /** Reading a run of lines from the start, stopping at the first `[DONE]`. */
  function ScanLines(lines: seq<string>, decode: string -> Option<string>): (s: Scan)
    ensures forall f <- s.fragments :: f != ""
    ensures |s.fragments| <= |lines|
  {
    if lines == [] then Scan([], false)
    else
      match ClassifyLine(lines[0], decode)
      case Finish => Scan([], true)
      case Ignore => ScanLines(lines[1..], decode)
      case Emit(f) =>
        var rest := ScanLines(lines[1..], decode);
        Scan([f] + rest.fragments, rest.finished)
  }

  /** Reading `b` after `a`: nothing more once `a` has finished. */
  function Then(a: Scan, b: Scan): Scan {
    if a.finished then a else Scan(a.fragments + b.fragments, b.finished)
  }

  /** Reading is a left-to-right fold: a run of lines read in two parts reads the same
      as read at once, and the second part is never read once the first finished. */
  lemma {:induction false} ScanAppend(xs: seq<string>, ys: seq<string>, decode: string -> Option<string>)
    ensures ScanLines(xs + ys, decode) == Then(ScanLines(xs, decode), ScanLines(ys, decode))
  {
    if xs == [] {
      assert xs + ys == ys;
      assert [] + ScanLines(ys, decode).fragments == ScanLines(ys, decode).fragments;
    } else {
      assert (xs + ys)[0] == xs[0];
      assert (xs + ys)[1..] == xs[1..] + ys;
      ScanAppend(xs[1..], ys, decode);
      match ClassifyLine(xs[0], decode)
      case Finish =>
      case Ignore =>
      case Emit(f) =>
        var a := ScanLines(xs[1..], decode);
        var b := ScanLines(ys, decode);
        assert [f] + (a.fragments + b.fragments) == ([f] + a.fragments) + b.fragments;
    }
  }

  /** Reading one more line after an unfinished run. */
  lemma ScanOneMore(prefix: seq<string>, line: string, decode: string -> Option<string>)
    requires !ScanLines(prefix, decode).finished
    ensures ScanLines(prefix + [line], decode) ==
      match ClassifyLine(line, decode)
      case Finish => Scan(ScanLines(prefix, decode).fragments, true)
      case Ignore => ScanLines(prefix, decode)
      case Emit(f) => Scan(ScanLines(prefix, decode).fragments + [f], false)
  {
    ScanAppend(prefix, [line], decode);
    ghost var single: seq<string> := [line];
    assert single[1..] == [];
    assert ScanLines(prefix, decode).fragments + [] == ScanLines(prefix, decode).fragments;
  }

  /** The lines the body yields: every chunk is split on `\n` on its own, so a line cut
      by a chunk boundary becomes two lines. */
  function StreamLines(chunks: seq<string>): seq<string> {
    if chunks == [] then []
    else StreamLines(chunks[..|chunks| - 1]) + SplitLines(chunks[|chunks| - 1])
  }

  /** Every chunk yields at least one line, and no line holds a newline. */
  lemma {:induction false} StreamLinesAreLines(chunks: seq<string>)
    ensures |StreamLines(chunks)| >= |chunks|
    ensures forall l <- StreamLines(chunks) :: '\n' !in l
  {
    if chunks != [] {
      StreamLinesAreLines(chunks[..|chunks| - 1]);
    }
  }

  lemma {:induction false} StreamLinesAppend(a: seq<string>, b: seq<string>)
    ensures StreamLines(a + b) == StreamLines(a) + StreamLines(b)
  {
    if b == [] {
      assert a + b == a;
    } else {
      var front := b[..|b| - 1];
      assert (a + b)[..|a + b| - 1] == a + front;
      assert (a + b)[|a + b| - 1] == b[|b| - 1];
      StreamLinesAppend(a, front);
    }
  }

  /** Reading one more chunk adds that chunk's lines. */
  lemma StreamLinesStep(chunks: seq<string>, i: nat)
    requires i < |chunks|
    ensures StreamLines(chunks[..i + 1]) == StreamLines(chunks[..i]) + SplitLines(chunks[i])
  {
    assert chunks[..i + 1][..i] == chunks[..i];
  }

  /** Once the lines of the first `i + 1` chunks have met `[DONE]`, the chunks after
      them are never read. */
  lemma StreamStopsAt(chunks: seq<string>, i: nat, decode: string -> Option<string>)
    requires i < |chunks|
    requires ScanLines(StreamLines(chunks[..i + 1]), decode).finished
    ensures ScanLines(StreamLines(chunks), decode) == ScanLines(StreamLines(chunks[..i + 1]), decode)
  {
    var read, unread := chunks[..i + 1], chunks[i + 1..];
    assert chunks == read + unread;
    StreamLinesAppend(read, unread);
    ScanAppend(StreamLines(read), StreamLines(unread), decode);
  }

  /** What `streamChat` yields for the outcome of its request: the result and the
      fragments passed to `onChunk`. */
  datatype Streamed = Streamed(result: Result<string, ServiceError>, fragments: seq<string>)

  /** Whether `streamChat` gets hold of a body reader (and so must release it). */
  predicate ReaderAcquired(outcome: FetchOutcome) {
    outcome.Responded? && outcome.response.Ok() && outcome.response.body.Some?
  }

  /** How `streamChat` handles the outcome of its request: errors before the body is
      read produce no fragments; otherwise the fragments are those of the lines read
      up to `[DONE]`, and the answer is their concatenation unless the body ends with
      a failed read before any `[DONE]`. */
  function StreamReply(outcome: FetchOutcome, decode: string -> Option<string>): (s: Streamed)
    ensures forall f <- s.fragments :: f != ""
    ensures s.result.Success? ==> s.result.value == Concat(s.fragments)
    ensures !ReaderAcquired(outcome) ==> s.fragments == [] && s.result.Failure?
    ensures outcome.Rejected? ==> s.result == Failure(NetworkError(outcome.reason))
    ensures outcome.Responded? && !outcome.response.Ok() ==>
      s.result == Failure(ApiError(outcome.response.status, Some(UpstreamDetail(outcome.response.json))))
    ensures outcome.Responded? && outcome.response.Ok() && outcome.response.body.None? ==>
      s.result == Failure(NoReader)
    ensures ReaderAcquired(outcome) && s.result.Failure? ==>
      && outcome.response.body.value.end.ReadError?
      && s.result == Failure(StreamReadError(outcome.response.body.value.end.reason))
    ensures ReaderAcquired(outcome) ==>
      var scan := ScanLines(StreamLines(outcome.response.body.value.chunks), decode);
      && s.fragments == scan.fragments
      && (s.result.Success? <==> scan.finished || outcome.response.body.value.end.EndOfStream?)
  {
    match outcome
    case Rejected(reason) => Streamed(Failure(NetworkError(reason)), [])
    case Responded(response) =>
      if !response.Ok() then
        Streamed(Failure(ApiError(response.status, Some(UpstreamDetail(response.json)))), [])
      else if response.body.None? then Streamed(Failure(NoReader), [])
      else
        var stream := response.body.value;
        var scan := ScanLines(StreamLines(stream.chunks), decode);
        if scan.finished || stream.end.EndOfStream? then Streamed(Success(Concat(scan.fragments)), scan.fragments)
        else Streamed(Failure(StreamReadError(stream.end.reason)), scan.fragments)
  }

  /** A `data: [DONE]` line ends the reading at once: the answer is what came before
      it, and no line after it is read. */
  lemma DoneEndsStream(before: seq<string>, after: seq<string>, decode: string -> Option<string>)
    requires !ScanLines(before, decode).finished
    ensures ScanLines(before + [DataPrefix + DoneSentinel] + after, decode)
         == Scan(ScanLines(before, decode).fragments, true)
  {
    ScanOneMore(before, DataPrefix + DoneSentinel, decode);
    ScanAppend(before + [DataPrefix + DoneSentinel], after, decode);
  }

  /** A line that is ignored (no `data: ` prefix, a payload that fails to decode, or
      empty content) leaves the reading exactly as if it were absent. */
  lemma IgnoredLineIsInvisible(before: seq<string>, line: string, after: seq<string>,
                               decode: string -> Option<string>)
    requires ClassifyLine(line, decode) == Ignore
    ensures ScanLines(before + [line] + after, decode) == ScanLines(before + after, decode)
  {
    ghost var single: seq<string> := [line];
    assert single[1..] == [];
    ScanAppend(before, [line] + after, decode);
    ScanAppend([line], after, decode);
    ScanAppend(before, after, decode);
    assert before + [line] + after == before + ([line] + after);
  }

  /** A `data: ` line carries its payload right after the prefix; the examples
      below use this to read their lines. */
  lemma DataLine(payload: string)
    ensures StartsWith(DataPrefix + payload, DataPrefix)
    ensures (DataPrefix + payload)[|DataPrefix|..] == payload
  {
  }

  /** Each chunk is split on its own: a `data: [DONE]` line cut by a chunk boundary is
      not recognised, and reading goes on into the chunks after it. */
  lemma SplitDoneIsMissed(decode: string -> Option<string>)
    requires decode("[DO") == None && decode("X") == Some("late")
    ensures ScanLines(StreamLines([DataPrefix + DoneSentinel, DataPrefix + "X"]), decode) == Scan([], true)
    ensures ScanLines(StreamLines([DataPrefix + "[DO", "NE]", DataPrefix + "X"]), decode) == Scan(["late"], false)
  {
    var done, late, front, back := DataPrefix + DoneSentinel, DataPrefix + "X", DataPrefix + "[DO", "NE]";
    DataLine("X");
    DataLine("[DO");
    assert ClassifyLine(late, decode) == Emit("late");
    assert ClassifyLine(front, decode) == Ignore;
    assert ClassifyLine(back, decode) == Ignore by {
      assert |back| < |DataPrefix|;
    }
    assert '\n' !in done && '\n' !in late && '\n' !in front && '\n' !in back by {
      assert '\n' !in DataPrefix && '\n' !in DoneSentinel;
    }
    ChunksAreLines([done, late]);
    ChunksAreLines([front, back, late]);
    ghost var tail: seq<string> := [late];
    assert tail[1..] == [];
    assert ScanLines(tail, decode) == Scan(["late"], false);
    assert [front, back, late][1..] == [back, late] && [back, late][1..] == tail;
    assert ScanLines([back, late], decode) == Scan(["late"], false);
  }

  /** Chunks without a newline are read as one line each. */
  lemma {:induction false} ChunksAreLines(chunks: seq<string>)
    requires forall c <- chunks :: '\n' !in c
    ensures StreamLines(chunks) == chunks
  {
    if chunks != [] {
      var front := chunks[..|chunks| - 1];
      ChunksAreLines(front);
      SplitLinesSingle(chunks[|chunks| - 1]);
      assert front + [chunks[|chunks| - 1]] == chunks;
    }
  }

  /** A chunk of four newline-terminated lines splits into those lines and a last
      empty one. */
  lemma FourLines(l1: string, l2: string, l3: string, l4: string)
    requires '\n' !in l1 && '\n' !in l2 && '\n' !in l3 && '\n' !in l4
    ensures StreamLines([l1 + "\n" + l2 + "\n" + l3 + "\n" + l4 + "\n"]) == [l1, l2, l3, l4, ""]
  {
    var lines := [l1, l2, l3, l4, ""];
    SplitLinesJoin(lines);
    var chunk := l1 + "\n" + l2 + "\n" + l3 + "\n" + l4 + "\n";
    var s4, s3, s2 := lines[1..][1..][1..], lines[1..][1..], lines[1..];
    assert s4 == [l4, ""] && Join(s4, "\n") == l4 + "\n" + "";
    assert s3 == [l3] + s4 && Join(s3, "\n") == l3 + "\n" + Join(s4, "\n");
    assert s2 == [l2] + s3 && Join(s2, "\n") == l2 + "\n" + Join(s3, "\n");
    assert Join(lines, "\n") == l1 + "\n" + Join(s2, "\n");
    assert Join(lines, "\n") == chunk;
    ghost var chunks: seq<string> := [chunk];
    assert chunks[..0] == [];
  }

  /** Two content lines around a malformed one, then `data: [DONE]`, in one chunk: the
      two contents are emitted in order, the malformed line is skipped, and the answer
      is their concatenation. */
  lemma ContentThenDone(first: string, bad: string, second: string, decode: string -> Option<string>)
    requires '\n' !in first && '\n' !in bad && '\n' !in second
    requires first != DoneSentinel && bad != DoneSentinel && second != DoneSentinel
    requires decode(first) == Some("Hi") && decode(bad) == None && decode(second) == Some(" there")
    ensures var chunk := DataPrefix + first + "\n" + DataPrefix + bad + "\n" + DataPrefix + second + "\n"
                         + DataPrefix + DoneSentinel + "\n";
      var outcome := Responded(HttpResponse(200, NotJson, Some(ChunkStream([chunk], EndOfStream))));
      StreamReply(outcome, decode) == Streamed(Success("Hi there"), ["Hi", " there"])
  {
    var l1, l2, l3, l4 := DataPrefix + first, DataPrefix + bad, DataPrefix + second, DataPrefix + DoneSentinel;
    assert '\n' !in DataPrefix && '\n' !in DoneSentinel;
    FourLines(l1, l2, l3, l4);
    assert l1 + "\n" + l2 + "\n" + l3 + "\n" + l4 + "\n"
        == DataPrefix + first + "\n" + DataPrefix + bad + "\n" + DataPrefix + second + "\n"
           + DataPrefix + DoneSentinel + "\n";
    var lines := [l1, l2, l3, l4, ""];
    DataLine(first);
    DataLine(bad);
    DataLine(second);
    assert ClassifyLine(l1, decode) == Emit("Hi");
    assert ClassifyLine(l2, decode) == Ignore;
    assert ClassifyLine(l3, decode) == Emit(" there");
    assert ClassifyLine(l4, decode) == Finish;
    assert lines[1..] == [l2, l3, l4, ""];
    assert lines[1..][1..] == [l3, l4, ""];
    assert lines[1..][1..][1..] == [l4, ""];
    assert ScanLines([l4, ""], decode) == Scan([], true);
    assert ScanLines([l3, l4, ""], decode) == Scan([" there"], true);
    assert ScanLines([l2, l3, l4, ""], decode) == Scan([" there"], true);
    assert ScanLines(lines, decode) == Scan(["Hi", " there"], true);
    assert Concat(["Hi", " there"]) == "Hi there" by {
      assert ["Hi", " there"][..1] == ["Hi"] && ["Hi"][..0] == [];
    }
  }

  /** The body of the inner loop of `streamChat` for one line: `done` when the line
      is `data: [DONE]`, otherwise the line's fragment, if any, is accumulated. */
  method ReadLine(line: string, decode: string -> Option<string>,
                  fullResponseBefore: string, emittedBefore: seq<string>)
    returns (fullResponse: string, emitted: seq<string>, done: bool)
    requires fullResponseBefore == Concat(emittedBefore)
    ensures done <==> ClassifyLine(line, decode) == Finish
    ensures ClassifyLine(line, decode).Emit? ==> emitted == emittedBefore + [ClassifyLine(line, decode).fragment]
    ensures !ClassifyLine(line, decode).Emit? ==> emitted == emittedBefore
    ensures fullResponse == Concat(emitted)
  {
    fullResponse, emitted, done := fullResponseBefore, emittedBefore, false;
    if StartsWith(line, DataPrefix) {
      var data := line[|DataPrefix|..];
      if data == DoneSentinel {
        return fullResponse, emitted, true;
      }
      match decode(data)
      case Some(content) =>
        if content != "" {
          fullResponse := fullResponse + content;
          emitted := emitted + [content];
          assert emitted[..|emitted| - 1] == emittedBefore;
        }
      case None =>
    }
  }

  /** The inner loop of `streamChat` over the lines of one chunk, entered with the
      answer read so far from the earlier lines `before`. It returns at the first
      `data: [DONE]` line with `finished` set. */
  method ReadChunk(ghost before: seq<string>, lines: seq<string>, decode: string -> Option<string>,
                   fullResponseBefore: string, emittedBefore: seq<string>)
    returns (fullResponse: string, emitted: seq<string>, finished: bool)
    requires ScanLines(before, decode) == Scan(emittedBefore, false)
    requires fullResponseBefore == Concat(emittedBefore)
    ensures ScanLines(before + lines, decode) == Scan(emitted, finished)
    ensures fullResponse == Concat(emitted)
  {
    fullResponse, emitted := fullResponseBefore, emittedBefore;
    var j := 0;
    assert before + lines[..j] == before;
    while j < |lines|
      invariant 0 <= j <= |lines|
      invariant ScanLines(before + lines[..j], decode) == Scan(emitted, false)
      invariant fullResponse == Concat(emitted)
    {
      ghost var read := before + lines[..j + 1];
      ScanOneMore(before + lines[..j], lines[j], decode);
      assert read == (before + lines[..j]) + [lines[j]];
      var done;
      fullResponse, emitted, done := ReadLine(lines[j], decode, fullResponse, emitted);
      if done {
        ScanAppend(read, lines[j + 1..], decode);
        assert before + lines == read + lines[j + 1..];
        return fullResponse, emitted, true;
      }
      j := j + 1;
    }
    assert lines[..|lines|] == lines;
    finished := false;
  }

  /** The read loop of `streamChat`: reads the chunks in order, splits each on `\n`,
      and stops at the first `data: [DONE]` line. `emitted` lists the strings passed
      to `onChunk`, `fullResponse` is the accumulator and `finished` says whether the
      loop returned at `[DONE]` rather than at the end of the chunks. */
  method ReadLines(chunks: seq<string>, decode: string -> Option<string>)
    returns (fullResponse: string, emitted: seq<string>, finished: bool)
    ensures ScanLines(StreamLines(chunks), decode) == Scan(emitted, finished)
    ensures fullResponse == Concat(emitted)
  {
    fullResponse, emitted := "", [];
    var i := 0;
    while i < |chunks|
      invariant 0 <= i <= |chunks|
      invariant ScanLines(StreamLines(chunks[..i]), decode) == Scan(emitted, false)
      invariant fullResponse == Concat(emitted)
    {
      StreamLinesStep(chunks, i);
      fullResponse, emitted, finished := ReadChunk(StreamLines(chunks[..i]), SplitLines(chunks[i]), decode,
                                                   fullResponse, emitted);
      if finished {
        StreamStopsAt(chunks, i, decode);
        return;
      }
      i := i + 1;
    }
    assert chunks[..|chunks|] == chunks;
    finished := false;
  }

  /** `GroqService.streamChat`. `emitted` lists the strings passed to `onChunk`, in
      order; `released` records that the reader lock was released on the way out. */
  method StreamChat(message: string, systemPrompt: Option<string>, storedKey: Option<string>,
                    fetch: ChatRequest -> FetchOutcome, decode: string -> Option<string>)
    returns (result: Result<string, ServiceError>, emitted: seq<string>, sent: seq<ChatRequest>,
             ghost released: bool)
    ensures forall f <- emitted :: f != ""
    ensures result.Success? ==> result.value == Concat(emitted)
    ensures !Truthy(storedKey) ==> result == Failure(ApiKeyNotConfigured) && emitted == [] && sent == []
    ensures Truthy(storedKey) ==>
      && |sent| == 1
      && IsGroqRequest(sent[0], storedKey.value, message, systemPrompt, true)
      && Streamed(result, emitted) == StreamReply(fetch(sent[0]), decode)
    ensures released <==> Truthy(storedKey) && ReaderAcquired(fetch(sent[0]))
  {
    emitted, released := [], false;
    if !Truthy(storedKey) {
      return Failure(ApiKeyNotConfigured), emitted, [], released;
    }
    var messages := BuildMessages(message, systemPrompt);
    var request := ChatRequest(Endpoint, Bearer(storedKey.value), ModelName, messages,
                               DefaultTemperatureTenths, MaxTokens, Some(true));
    sent := [request];
    var outcome := fetch(request);
    if outcome.Rejected? {
      return Failure(NetworkError(outcome.reason)), emitted, sent, released;
    }
    var response := outcome.response;
    if !response.Ok() {
      result := Failure(ApiError(response.status, Some(UpstreamDetail(response.json))));
      return;
    }
    if response.body.None? {
      return Failure(NoReader), emitted, sent, released;
    }
    var stream := response.body.value;
    var fullResponse, finished;
    fullResponse, emitted, finished := ReadLines(stream.chunks, decode);
    released := true;
    if finished || stream.end.EndOfStream? {
      result := Success(fullResponse);
    } else {
      result := Failure(StreamReadError(stream.end.reason));
    }
  }
}
