/** The gateway client: the authorization header, the tool-invocation and non-streaming
    chat reply shaping, and the streaming chat aggregator that turns a server-sent-event
    stream into token, completion and error callbacks. */
module Gateway {
  import opened Wrappers
  import opened Js
  import Text
  import opened Lines

  /** `AUTH_HEADER`: the password is used when it is non-empty, otherwise the token. */
  function AuthHeader(password: string, token: string): (h: string)
    ensures |h| >= 7 && h[..7] == "Bearer "
    ensures password != "" ==> h[7..] == password
    ensures password == "" ==> h[7..] == token
  {
    "Bearer " + (if password != "" then password else token)
  }

  /** The message of a non-OK HTTP response: `HTTP <status>: <text>`. */
  function HttpError(status: nat, text: string): string {
    "HTTP " + Text.Decimal(status) + ": " + text
  }

  /** The HTTP status line and the body, as the code sees them after `fetch` returned. */
  datatype Reply =
    | Replied(ok: bool, status: nat, statusText: string, text: string, json: Value)
    | Threw(thrown: Thrown)

  // ---------------------------------------------------------------------------------------
  // invokeTool and chatSimple

  /** What `invokeTool` resolves to: the gateway's own JSON reply, or an error object. */
  datatype ToolResponse =
    | Passed(body: Value)
    | ToolFailed(kind: string, message: string)

  /** `invokeTool`: an OK reply is passed through unchanged; a non-OK one becomes an
      `http_error` whose message uses the body text, or the status text when the body is
      empty; a thrown error becomes a `network_error`. */
  function InvokeTool(reply: Reply): (r: ToolResponse)
    ensures reply.Replied? && reply.ok ==> r == Passed(reply.json)
    ensures reply.Replied? && !reply.ok ==>
      r == ToolFailed("http_error",
        HttpError(reply.status, if reply.text != "" then reply.text else reply.statusText))
    ensures reply.Threw? ==> r == ToolFailed("network_error", ErrorMessage(reply.thrown))
  {
    match reply
    case Threw(t) => ToolFailed("network_error", ErrorMessage(t))
    case Replied(ok, status, statusText, text, json) =>
      if !ok then ToolFailed("http_error", HttpError(status, if text != "" then text else statusText))
      else Passed(json)
  }

  /** What `chatSimple` (and the quick-action route's `executeChat`) resolves to. */
  datatype ChatResult = ChatOk(response: Value) | ChatFailed(error: string)

  /** The message a property read on `null` or `undefined` throws (as V8 words it). */
  function ReadOfNullishMessage(v: Value, key: string): string
    requires Nullish(v)
  {
    "Cannot read properties of " + (if v.Null? then "null" else "undefined")
    + " (reading '" + key + "')"
  }

  /** `data.choices?.[0]?.message?.content`, or the TypeError thrown by `data.choices`. */
  function ReplyContent(data: Value): (r: Result)
    ensures r.Ok? <==> !Nullish(data)
  {
    match Member(data, "choices")
    case None => Err(ReadOfNullishMessage(data, "choices"))
    case Some(choices) => Ok(OptMember(OptMember(OptFirst(choices), "message"), "content"))
  }

  datatype Result = Ok(value: Value) | Err(message: string)

  /** `chatSimple`: a non-OK reply gives `HTTP <status>: <text>` (no status-text fallback);
      an OK reply gives the first choice's message content, or `No response` when that is
      falsy; anything thrown gives its message. */
  function ChatSimple(reply: Reply): (r: ChatResult)
    ensures reply.Replied? && !reply.ok ==> r == ChatFailed(HttpError(reply.status, reply.text))
    ensures reply.Replied? && reply.ok && !Nullish(reply.json) ==>
      var c := ReplyContent(reply.json).value;
      r == ChatOk(if Truthy(c) then c else Str("No response"))
    ensures reply.Replied? && reply.ok && Nullish(reply.json) ==>
      r == ChatFailed(ReadOfNullishMessage(reply.json, "choices"))
    ensures r.ChatOk? ==> Truthy(r.response)
    ensures reply.Threw? ==> r == ChatFailed(ErrorMessage(reply.thrown))
  {
    match reply
    case Threw(t) => ChatFailed(ErrorMessage(t))
    case Replied(ok, status, _, text, json) =>
      if !ok then ChatFailed(HttpError(status, text))
      else
        match ReplyContent(json)
        case Err(m) => ChatFailed(m)
        case Ok(c) => ChatOk(if Truthy(c) then c else Str("No response"))
  }

  // ---------------------------------------------------------------------------------------
  // chatCompletions: the streaming aggregator

  /** A callback invocation: `onToken`, `onComplete` or `onError`. */
  datatype Event = Token(text: string) | Complete(text: string) | Error(message: string)

  const DataPrefix := "data: "
  const Sentinel := "[DONE]"

  /** What one line of the stream means to the aggregator. */
  datatype LineKind =
    | NotData             // does not start with `data: `
    | Terminator          // `data: [DONE]`
    | Malformed           // payload rejected by `JSON.parse`, or `parsed.choices` threw
    | NoContent           // `choices[0].delta.content` absent or falsy
    | Content(token: string)

  /** The token a parsed payload carries, or why it carries none. */
  function PayloadKind(parsed: Value): (k: LineKind)
    ensures k.Malformed? || k.NoContent? || k.Content?
    ensures var c := OptMember(OptMember(OptFirst(OptMember(parsed, "choices")), "delta"), "content");
      && (k.Malformed? <==> Nullish(parsed))
      && (k.Content? <==> !Nullish(parsed) && Truthy(c))
      && (k.Content? ==> k.token == ToJsString(c))
  {
    match Member(parsed, "choices")
    case None => Malformed
    case Some(choices) =>
      var content := OptMember(OptMember(OptFirst(choices), "delta"), "content");
      if Truthy(content) then Content(ToJsString(content)) else NoContent
  }

  /** The meaning of one physical line; `parse` stands for `JSON.parse` (`None` when it
      throws). */
  function Classify(line: string, parse: string -> Option<Value>): (k: LineKind)
    ensures !Text.StartsWith(line, DataPrefix) <==> k.NotData?
    ensures k.Terminator? <==> Text.StartsWith(line, DataPrefix) && line[6..] == Sentinel
    ensures k.Content? ==> parse(line[6..]).Some? && PayloadKind(parse(line[6..]).value) == k
    ensures k.Content? <==>
      && Text.StartsWith(line, DataPrefix) && line[6..] != Sentinel
      && parse(line[6..]).Some? && PayloadKind(parse(line[6..]).value).Content?
  {
    if !Text.StartsWith(line, DataPrefix) then NotData
    else
      var data := line[6..];
      if data == Sentinel then Terminator
      else
        match parse(data)
        case None => Malformed
        case Some(parsed) => PayloadKind(parsed)
  }

  /** The aggregator's state: still reading (with `fullResponse` and the callbacks fired so
      far), or returned after the sentinel. */
  datatype Aggregation =
    | Reading(full: string, events: seq<Event>)
    | Finished(events: seq<Event>)

  const Start := Reading("", [])

  /** The effect of one complete line: a finished run stays as it is, and a callback once
      fired is never retracted; at most one is added. */
  function Step(st: Aggregation, line: string, parse: string -> Option<Value>): (r: Aggregation)
    ensures st.Finished? ==> r == st
    ensures st.events <= r.events && |r.events| <= |st.events| + 1
  {
    match st
    case Finished(_) => st
    case Reading(full, events) =>
      match Classify(line, parse)
      case Terminator => Finished(events + [Complete(full)])
      case Content(t) => Reading(full + t, events + [Token(t)])
      case _ => st
  }

  /** The effect of a sequence of complete lines, in order: the callbacks fired before are
      kept as a prefix, and each line adds at most one. */
  function Run(st: Aggregation, lines: seq<string>, parse: string -> Option<Value>): (r: Aggregation)
    ensures st.events <= r.events && |r.events| <= |st.events| + |lines|
    ensures st.Finished? ==> r == st
  {
    if lines == [] then st
    else Step(Run(st, lines[..|lines| - 1], parse), lines[|lines| - 1], parse)
  }

  /** The sentinel has been seen among the complete lines of `text`. */
  predicate SentinelSeen(text: string, parse: string -> Option<Value>) {
    Run(Start, CompleteLines(text), parse).Finished?
  }

  /** How the byte source ended after its last chunk. */
  datatype StreamEnd = EndOfData | ReadFailed(thrown: Thrown)

  /** The callbacks fired for a stream whose decoded text is `text`: those of its complete
      lines, then, unless the sentinel ended the stream, `onComplete` at end of data or
      `onError` when the read failed. The unterminated tail is never parsed. */
  function Aggregate(text: string, end: StreamEnd, parse: string -> Option<Value>): (r: seq<Event>)
    ensures Run(Start, CompleteLines(text), parse).events <= r
    ensures Run(Start, CompleteLines(text), parse).Reading? ==>
      |r| == |Run(Start, CompleteLines(text), parse).events| + 1 && !r[|r| - 1].Token?
  {
    match Run(Start, CompleteLines(text), parse)
    case Finished(events) => events
    case Reading(full, events) =>
      events + [if end.EndOfData? then Complete(full) else Error(ErrorMessage(end.thrown))]
  }

  /** What `fetch` produced for the streaming request. */
  datatype StreamResponse =
    | Opened(ok: bool, status: nat, statusText: string, text: string, hasBody: bool)
    | FetchThrew(thrown: Thrown)

  predicate StreamOpened(r: StreamResponse) {
    r.Opened? && r.ok && r.hasBody
  }

  /** The callbacks `chatCompletions` fires, as a function of the request outcome and of the
      decoded stream. */
  function ChatEvents(response: StreamResponse, chunks: seq<string>, end: StreamEnd,
                      parse: string -> Option<Value>): (r: seq<Event>)
    ensures !StreamOpened(response) ==> |r| == 1 && r[0].Error?
  {
    match response
    case FetchThrew(t) => [Error(ErrorMessage(t))]
    case Opened(ok, status, statusText, text, hasBody) =>
      if !ok then [Error(HttpError(status, if text != "" then text else statusText))]
      else if !hasBody then [Error("No response body")]
      else Aggregate(Concat(chunks), end, parse)
  }

  /** `chatCompletions`: a failed request fires one `onError` and reads nothing; otherwise
      the stream is read as `ReadStream` does. It fires the callbacks of the whole decoded
      text, however that text was cut into chunks, and it reads no chunk after the one that
      completed the sentinel line. */
  method ChatCompletions(response: StreamResponse, chunks: seq<string>, end: StreamEnd,
                         parse: string -> Option<Value>)
    returns (events: seq<Event>, consumed: nat)
    ensures events == ChatEvents(response, chunks, end, parse)
    ensures !StreamOpened(response) ==> consumed == 0
    ensures consumed <= |chunks|
    ensures StreamOpened(response) ==> ReadUpTo(chunks, consumed, parse)
  {
    if response.FetchThrew? {
      return [Error(ErrorMessage(response.thrown))], 0;
    }
    if !response.ok {
      var text := if response.text != "" then response.text else response.statusText;
      return [Error(HttpError(response.status, text))], 0;
    }
    if !response.hasBody {
      return [Error("No response body")], 0;
    }
    events, consumed := ReadStream(chunks, end, parse);
  }

  /** Reading stopped after `n` chunks exactly as it should: the sentinel was not among the
      lines of any shorter prefix, and it is among those of the first `n` unless every chunk
      was read. */
  predicate ReadUpTo(chunks: seq<string>, n: nat, parse: string -> Option<Value>) {
    && n <= |chunks|
    && (forall k :: 0 <= k < n ==> !SentinelSeen(Concat(chunks[..k]), parse))
    && (n < |chunks| ==> SentinelSeen(Concat(chunks[..n]), parse))
  }

  /** The read loop of `chatCompletions`: reads the chunks one at a time, keeps the
      unterminated tail in `buffer`, handles every complete line in order, and returns at
      the sentinel. */
  method ReadStream(chunks: seq<string>, end: StreamEnd, parse: string -> Option<Value>)
    returns (events: seq<Event>, consumed: nat)
    ensures events == Aggregate(Concat(chunks), end, parse)
    ensures ReadUpTo(chunks, consumed, parse)
  {
    var full, buffer := "", "";
    events, consumed := [], 0;
    assert chunks[..0] == [];
    while consumed < |chunks|
      invariant consumed <= |chunks|
      invariant buffer == Tail(Concat(chunks[..consumed]))
      invariant Run(Start, CompleteLines(Concat(chunks[..consumed])), parse) == Reading(full, events)
      invariant NoSentinelYet(chunks, consumed, parse)
    {
      ghost var n, full0, events0 := consumed, full, events;
      var done;
      buffer, full, events, done := ReadChunk(buffer, chunks[consumed], full, events, parse);
      ChunkAdvance(chunks, n, end, full0, events0, full, events, done, parse);
      consumed := consumed + 1;
      if done {
        return;
      }
    }
    NoSentinelUpTo(chunks, consumed, parse);
    assert chunks[..consumed] == chunks;
    events := events + [if end.EndOfData? then Complete(full) else Error(ErrorMessage(end.thrown))];
  }

  /** One read of the loop: the chunk is appended to `buffer`, the text is split on `\n`,
      the last piece is kept as the new `buffer` and the others are handled in order. */
  method ReadChunk(buffer: string, chunk: string, full0: string, events0: seq<Event>,
                   parse: string -> Option<Value>)
    returns (tail: string, full: string, events: seq<Event>, done: bool)
    ensures tail == Tail(buffer + chunk)
    ensures Run(Reading(full0, events0), CompleteLines(buffer + chunk), parse) ==
      if done then Finished(events) else Reading(full, events)
  {
    var pieces := Split(buffer + chunk);
    var lines := pieces[..|pieces| - 1];
    tail := pieces[|pieces| - 1];
    full, events, done := HandleLines(full0, events0, lines, parse);
  }

  /** What one more chunk does to the loop's invariant: unless it completed the sentinel
      line, the state is that of the lines of all chunks so far; if it did, the callbacks
      fired are those of the whole stream and reading stops after it. */
  lemma ChunkAdvance(chunks: seq<string>, n: nat, end: StreamEnd, full0: string,
                     events0: seq<Event>, full: string, events: seq<Event>, done: bool,
                     parse: string -> Option<Value>)
    requires n < |chunks| && NoSentinelYet(chunks, n, parse)
    requires Run(Start, CompleteLines(Concat(chunks[..n])), parse) == Reading(full0, events0)
    requires Run(Reading(full0, events0), CompleteLines(Tail(Concat(chunks[..n])) + chunks[n]), parse)
             == if done then Finished(events) else Reading(full, events)
    ensures Tail(Concat(chunks[..n + 1])) == Tail(Tail(Concat(chunks[..n])) + chunks[n])
    ensures !done ==>
      && Run(Start, CompleteLines(Concat(chunks[..n + 1])), parse) == Reading(full, events)
      && NoSentinelYet(chunks, n + 1, parse)
    ensures done ==> ReadUpTo(chunks, n + 1, parse) && events == Aggregate(Concat(chunks), end, parse)
  {
    ChunkStep(chunks, n, parse);
    if done {
      NoSentinelUpTo(chunks, n, parse);
      SentinelStops(chunks, n + 1, end, parse);
    }
  }

  /** The sentinel is not among the lines of the first `k` chunks, for any `k <= n`. */
  predicate NoSentinelYet(chunks: seq<string>, n: nat, parse: string -> Option<Value>)
    requires n <= |chunks|
  {
    !SentinelSeen(Concat(chunks[..n]), parse) && (n == 0 || NoSentinelYet(chunks, n - 1, parse))
  }

  lemma {:induction false} NoSentinelUpTo(chunks: seq<string>, n: nat, parse: string -> Option<Value>)
    requires n <= |chunks| && NoSentinelYet(chunks, n, parse)
    ensures forall k :: 0 <= k <= n ==> !SentinelSeen(Concat(chunks[..k]), parse)
  {
    if n > 0 {
      NoSentinelUpTo(chunks, n - 1, parse);
    }
  }

  /** The inner loop of `chatCompletions` over the complete lines of one chunk: appends
      each token to `fullResponse` and fires `onToken`, and stops at the sentinel after
      firing `onComplete`. */
  method HandleLines(full0: string, events0: seq<Event>, lines: seq<string>,
                     parse: string -> Option<Value>)
    returns (full: string, events: seq<Event>, done: bool)
    ensures Run(Reading(full0, events0), lines, parse) ==
      if done then Finished(events) else Reading(full, events)
  {
    full, events := full0, events0;
    var i := 0;
    while i < |lines|
      invariant 0 <= i <= |lines|
      invariant Run(Reading(full0, events0), lines[..i], parse) == Reading(full, events)
    {
      var line := lines[i];
      assert lines[..i + 1][..i] == lines[..i];
      if Text.StartsWith(line, "data: ") {
        var data := line[6..];
        if data == "[DONE]" {
          events := events + [Complete(full)];
          DoneLine(Reading(full0, events0), lines, i, parse);
          return full, events, true;
        }
        var parsed := parse(data);
        if parsed.Some? {
          var choices := Member(parsed.value, "choices");
          if choices.Some? {
            var token := OptMember(OptMember(OptFirst(choices.value), "delta"), "content");
            if Truthy(token) {
              var t := ToJsString(token);
              full := full + t;
              events := events + [Token(t)];
            }
          }
        }
      }
      i := i + 1;
    }
    assert lines[..i] == lines;
    done := false;
  }

  /** Once the sentinel line is handled the state is final, whatever lines follow. */
  lemma DoneLine(st: Aggregation, lines: seq<string>, i: nat, parse: string -> Option<Value>)
    requires i < |lines|
    requires Run(st, lines[..i], parse).Reading?
    requires Classify(lines[i], parse).Terminator?
    ensures Run(st, lines, parse) ==
      Finished(Run(st, lines[..i], parse).events + [Complete(Run(st, lines[..i], parse).full)])
  {
    var head := lines[..i + 1];
    assert head[..i] == lines[..i];
    assert lines == head + lines[i + 1..];
    RunAppend(st, head, lines[i + 1..], parse);
    FinishedStays(Run(st, head, parse).events, lines[i + 1..], parse);
  }

  /** The complete lines after one more chunk: the old ones, then those completed by the
      old tail followed by the new chunk; the new tail comes from the same text. */
  lemma NextChunk(chunks: seq<string>, n: nat)
    requires n < |chunks|
    ensures CompleteLines(Concat(chunks[..n + 1])) ==
      CompleteLines(Concat(chunks[..n])) + CompleteLines(Tail(Concat(chunks[..n])) + chunks[n])
    ensures Tail(Concat(chunks[..n + 1])) == Tail(Tail(Concat(chunks[..n])) + chunks[n])
  {
    assert chunks[..n + 1][..n] == chunks[..n];
    assert Concat(chunks[..n + 1]) == Concat(chunks[..n]) + chunks[n];
    AppendLines(Concat(chunks[..n]), chunks[n]);
  }

  /** Handling the lines completed by one more chunk, after those of the earlier chunks, is
      handling the lines of all chunks so far; the tail kept is that of all of them. */
  lemma ChunkStep(chunks: seq<string>, n: nat, parse: string -> Option<Value>)
    requires n < |chunks|
    ensures Run(Start, CompleteLines(Concat(chunks[..n + 1])), parse) ==
      Run(Run(Start, CompleteLines(Concat(chunks[..n])), parse),
          CompleteLines(Tail(Concat(chunks[..n])) + chunks[n]), parse)
    ensures Tail(Concat(chunks[..n + 1])) == Tail(Tail(Concat(chunks[..n])) + chunks[n])
  {
    NextChunk(chunks, n);
    RunAppend(Start, CompleteLines(Concat(chunks[..n])),
              CompleteLines(Tail(Concat(chunks[..n])) + chunks[n]), parse);
  }

  /** When the sentinel is among the lines of the first `n` chunks, the later chunks and
      the way the source ends change nothing. */
  lemma SentinelStops(chunks: seq<string>, n: nat, end: StreamEnd, parse: string -> Option<Value>)
    requires n <= |chunks|
    requires SentinelSeen(Concat(chunks[..n]), parse)
    ensures Aggregate(Concat(chunks), end, parse) == Run(Start, CompleteLines(Concat(chunks[..n])), parse).events
  {
    assert chunks == chunks[..n] + chunks[n..];
    ConcatAppend(chunks[..n], chunks[n..]);
    SentinelEndsStream(Concat(chunks[..n]), Concat(chunks[n..]), end, parse);
  }

  /** Handling lines in two batches is handling them all at once. */
  lemma {:induction false} RunAppend(st: Aggregation, xs: seq<string>, ys: seq<string>,
                                     parse: string -> Option<Value>)
    ensures Run(st, xs + ys, parse) == Run(Run(st, xs, parse), ys, parse)
  {
    if ys == [] {
      assert xs + ys == xs;
    } else {
      RunAppend(st, xs, ys[..|ys| - 1], parse);
      assert (xs + ys)[..|xs + ys| - 1] == xs + ys[..|ys| - 1];
    }
  }

  /** After the sentinel no line has any effect. */
  lemma {:induction false} FinishedStays(events: seq<Event>, lines: seq<string>,
                                         parse: string -> Option<Value>)
    ensures Run(Finished(events), lines, parse) == Finished(events)
  {
    if lines != [] {
      FinishedStays(events, lines[..|lines| - 1], parse);
    }
  }

  /** The sentinel ends the stream: no later line, in the same chunk or any later one, is
      handled, and a read failure after it is never seen. */
  lemma SentinelEndsStream(text: string, rest: string, end: StreamEnd,
                           parse: string -> Option<Value>)
    requires SentinelSeen(text, parse)
    ensures Aggregate(text + rest, end, parse) == Run(Start, CompleteLines(text), parse).events
  {
    AppendLines(text, rest);
    RunAppend(Start, CompleteLines(text), CompleteLines(Tail(text) + rest), parse);
    FinishedStays(Run(Start, CompleteLines(text), parse).events,
                  CompleteLines(Tail(text) + rest), parse);
  }

  /** A trailing fragment that no newline terminates is discarded unparsed, even when it is
      a complete `data: [DONE]`. */
  lemma TrailingFragmentIgnored(text: string, fragment: string, end: StreamEnd,
                                parse: string -> Option<Value>)
    requires NoNewline(fragment)
    ensures Aggregate(text + fragment, end, parse) == Aggregate(text, end, parse)
  {
    FragmentAddsNoLine(text, fragment);
  }

  /** A line that is not a data line, a malformed payload, or one without content leaves the
      state as it was, so removing it from the stream changes nothing. */
  lemma SkippedLineInvisible(st: Aggregation, xs: seq<string>, line: string, ys: seq<string>,
                             parse: string -> Option<Value>)
    requires Classify(line, parse).NotData? || Classify(line, parse).Malformed?
             || Classify(line, parse).NoContent?
    ensures Run(st, xs + [line] + ys, parse) == Run(st, xs + ys, parse)
  {
    RunAppend(st, xs + [line], ys, parse);
    RunAppend(st, xs, ys, parse);
    assert (xs + [line])[..|xs|] == xs;
  }

  /** The in-order concatenation of the token texts among `events`. */
  function Tokens(events: seq<Event>): string {
    if events == [] then ""
    else Tokens(events[..|events| - 1])
         + (if events[|events| - 1].Token? then events[|events| - 1].text else "")
  }

  predicate AllTokens(events: seq<Event>) {
    forall i :: 0 <= i < |events| ==> events[i].Token?
  }

  /** While reading, every callback so far is `onToken` and `fullResponse` is their
      concatenation; once finished, the tokens are followed by one `onComplete` carrying
      exactly their concatenation. */
  predicate Shaped(st: Aggregation) {
    match st
    case Reading(full, events) => AllTokens(events) && full == Tokens(events)
    case Finished(events) =>
      |events| >= 1 && AllTokens(events[..|events| - 1])
      && events[|events| - 1] == Complete(Tokens(events[..|events| - 1]))
  }

  /** Handling one line keeps the shape. */
  lemma StepShape(st: Aggregation, line: string, parse: string -> Option<Value>)
    requires Shaped(st)
    ensures Shaped(Step(st, line, parse))
  {
    match st
    case Finished(_) =>
    case Reading(full, events) =>
      match Classify(line, parse)
      case Terminator =>
        var e := events + [Complete(full)];
        assert e[..|e| - 1] == events;
      case Content(t) =>
        var e := events + [Token(t)];
        assert e[..|e| - 1] == events;
      case _ =>
  }

  /** Every run from the start has that shape. */
  lemma {:induction false} RunShape(lines: seq<string>, parse: string -> Option<Value>)
    ensures Shaped(Run(Start, lines, parse))
  {
    if lines != [] {
      var prefix := lines[..|lines| - 1];
      RunShape(prefix, parse);
      StepShape(Run(Start, prefix, parse), lines[|lines| - 1], parse);
    }
  }

  /** Every stream fires its `onToken` callbacks first and then exactly one terminal
      callback: `onComplete` with the concatenation of every token, or `onError` when the
      source failed before the sentinel. `onComplete` never follows a failure. */
  lemma StreamTrace(text: string, end: StreamEnd, parse: string -> Option<Value>)
    ensures var events := Aggregate(text, end, parse);
      && |events| >= 1
      && AllTokens(events[..|events| - 1])
      && (events[|events| - 1] == Complete(Tokens(events[..|events| - 1]))
          || (end.ReadFailed? && !SentinelSeen(text, parse)
              && events[|events| - 1] == Error(ErrorMessage(end.thrown))))
      && (events[|events| - 1].Complete? ==> end.EndOfData? || SentinelSeen(text, parse))
  {
    var st := Run(Start, CompleteLines(text), parse);
    RunShape(CompleteLines(text), parse);
    var r := Aggregate(text, end, parse);
    if st.Reading? {
      var last := if end.EndOfData? then Complete(st.full) else Error(ErrorMessage(end.thrown));
      assert r == st.events + [last];
      assert r[..|r| - 1] == st.events;
    } else {
      assert r == st.events;
    }
  }

  /** Lines that do not start with `data: ` (blank ones included) are ignored: handling
      only the data lines gives the same result. */
  lemma {:induction false} OnlyDataLinesMatter(st: Aggregation, lines: seq<string>,
                                               parse: string -> Option<Value>)
    ensures Run(st, lines, parse) == Run(st, DataLines(lines), parse)
  {
    if lines != [] {
      var prefix := lines[..|lines| - 1];
      var last := lines[|lines| - 1];
      OnlyDataLinesMatter(st, prefix, parse);
      if Text.StartsWith(last, DataPrefix) {
        var d := DataLines(prefix) + [last];
        assert DataLines(lines) == d;
        assert d[..|d| - 1] == DataLines(prefix);
      } else {
        assert DataLines(lines) == DataLines(prefix);
        assert Classify(last, parse).NotData?;
        assert Run(st, lines, parse) == Step(Run(st, prefix, parse), last, parse);
      }
    }
  }

  /** The lines of `lines` that start with `data: `, in order. */
  function DataLines(lines: seq<string>): (r: seq<string>)
    ensures forall k :: 0 <= k < |r| ==> Text.StartsWith(r[k], DataPrefix)
  {
    if lines == [] then []
    else DataLines(lines[..|lines| - 1])
         + (if Text.StartsWith(lines[|lines| - 1], DataPrefix) then [lines[|lines| - 1]] else [])
  }
}
