/**
 * The reader of the chat stream in the browser, `sendMessageStream`: the
 * received text is appended to a buffer, split on line feeds, the trailing
 * partial line is kept for the next read, and every `data:` line is handled
 * until the `[DONE]` marker. The decoded text chunks are the input and
 * `parse` stands for `JSON.parse` (`None` when it throws). The calls made to
 * `onChunk` are returned in order instead of being made.
 */
module Api {
  import opened Text
  import opened Json
  import opened Agent
  import opened Server

  /** `onChunk(content)` for a `final` chunk, `onChunk(null, {tool})` for a `tool` chunk. */
  datatype Callback = OnText(content: Value) | OnTool(tool: Value)

  /** What the reader has done so far: the callbacks made, and `latency`. */
  datatype Progress = Progress(calls: seq<Callback>, latency: Value)

  const Start := Progress([], Num(0))

  /** `line.slice(6).trim()` for a line that starts with `data: `. */
  function Payload(line: string): string
    requires DataPrefix <= line
  {
    Trim(line[|DataPrefix|..])
  }

  /** A `data:` line whose payload is the `[DONE]` marker. */
  predicate IsDoneLine(line: string)
  {
    DataPrefix <= line && Payload(line) == DoneMarker
  }

  predicate ReachesDone(lines: seq<string>)
  {
    exists k {:trigger IsDoneLine(lines[k])} :: 0 <= k < |lines| && IsDoneLine(lines[k])
  }

  /** The payloads the reader handles: those of the `data:` lines before the first `[DONE]`. */
  function Payloads(lines: seq<string>): (payloads: seq<string>)
    ensures DoneMarker !in payloads
    ensures |payloads| <= |lines|
  {
    if lines == [] then []
    else if IsDoneLine(lines[0]) then []
    else if DataPrefix <= lines[0] then [Payload(lines[0])] + Payloads(lines[1..])
    else Payloads(lines[1..])
  }

  /** Lines before a `[DONE]` contribute their payloads in order; nothing after it counts. */
  lemma {:induction false} PayloadsAppend(a: seq<string>, b: seq<string>)
    ensures !ReachesDone(a) ==> Payloads(a + b) == Payloads(a) + Payloads(b)
    ensures ReachesDone(a) ==> Payloads(a + b) == Payloads(a)
    decreases |a|
  {
    if a == [] {
      assert a + b == b;
    } else {
      HeadOfAppend(a, b);
      PayloadsAppend(a[1..], b);
      ReachesDoneCons(a);
      if !IsDoneLine(a[0]) && DataPrefix <= a[0] {
        AppendAssoc([Payload(a[0])], Payloads(a[1..]), Payloads(b));
      }
    }
  }

  /** A `[DONE]` line is reached either at the first line or later. */
  lemma ReachesDoneCons(lines: seq<string>)
    requires lines != []
    ensures ReachesDone(lines) <==> IsDoneLine(lines[0]) || ReachesDone(lines[1..])
  {
    if ReachesDone(lines) && !IsDoneLine(lines[0]) {
      var k :| 0 <= k < |lines| && IsDoneLine(lines[k]);
      assert lines[1..][k - 1] == lines[k];
    }
    if ReachesDone(lines[1..]) {
      var k :| 0 <= k < |lines[1..]| && IsDoneLine(lines[1..][k]);
      assert lines[k + 1] == lines[1..][k];
    }
  }

  /** How the line in front decides the payloads. */
  lemma PayloadsCons(line: string, rest: seq<string>)
    ensures !(DataPrefix <= line) ==> Payloads([line] + rest) == Payloads(rest)
    ensures DataPrefix <= line && !IsDoneLine(line) ==> Payloads([line] + rest) == [Payload(line)] + Payloads(rest)
    ensures IsDoneLine(line) ==> Payloads([line] + rest) == []
  {
    assert ([line] + rest)[0] == line;
    assert ([line] + rest)[1..] == rest;
  }

  /** Whether a parsed chunk is a `done` chunk. */
  predicate IsDoneChunk(parsed: Option<Value>)
  {
    parsed.Some? && Prop(parsed.value, "type") == Str("done")
  }

  /**
   * The `try` block for one payload: `final` and `tool` chunks call back,
   * `done` sets the latency; an `error` chunk throws and an unparsable
   * payload fails to parse, and both are caught and only logged.
   */
  function Dispatch(p: Progress, payload: string, parse: string -> Option<Value>): (q: Progress)
    ensures p.calls <= q.calls && |q.calls| <= |p.calls| + 1
    ensures q.latency != p.latency ==> IsDoneChunk(parse(payload))
  {
    match parse(payload)
    case None => p
    case Some(chunk) =>
      var kind := Prop(chunk, "type");
      if kind == Str("final") then Progress(p.calls + [OnText(Prop(chunk, "content"))], p.latency)
      else if kind == Str("tool") then Progress(p.calls + [OnTool(Prop(chunk, "tool"))], p.latency)
      else if kind == Str("done") then Progress(p.calls, Prop(chunk, "latency"))
      else p
  }

  /** The payloads handled one after the other. */
  function DispatchAll(p: Progress, payloads: seq<string>, parse: string -> Option<Value>): (q: Progress)
    ensures p.calls <= q.calls && |q.calls| <= |p.calls| + |payloads|
  {
    if payloads == [] then p
    else Dispatch(DispatchAll(p, payloads[..|payloads| - 1], parse), payloads[|payloads| - 1], parse)
  }

  lemma {:induction false} DispatchAllAppend(p: Progress, a: seq<string>, b: seq<string>, parse: string -> Option<Value>)
    ensures DispatchAll(p, a + b, parse) == DispatchAll(DispatchAll(p, a, parse), b, parse)
    decreases |b|
  {
    if b == [] {
      assert a + b == a;
    } else {
      assert (a + b)[..|a + b| - 1] == a + b[..|b| - 1];
      assert (a + b)[|a + b| - 1] == b[|b| - 1];
      DispatchAllAppend(p, a, b[..|b| - 1], parse);
    }
  }

  /** An `error` chunk or an unparsable payload changes nothing, and reading goes on after it. */
  lemma ErrorsDoNotStop(before: seq<string>, payload: string, after: seq<string>, parse: string -> Option<Value>)
    requires parse(payload).None? || Prop(parse(payload).value, "type") == Str("error")
    ensures DispatchAll(Start, before + [payload] + after, parse) == DispatchAll(Start, before + after, parse)
  {
    DispatchAllAppend(Start, before + [payload], after, parse);
    DispatchAllAppend(Start, before, [payload], parse);
    DispatchAllAppend(Start, before, after, parse);
    assert [payload][..0] == [];
  }

  /** Without a `done` chunk the latency stays 0. */
  lemma {:induction false} LatencyWithoutDone(payloads: seq<string>, parse: string -> Option<Value>)
    requires forall k :: 0 <= k < |payloads| ==> !IsDoneChunk(parse(payloads[k]))
    ensures DispatchAll(Start, payloads, parse).latency == Num(0)
    decreases |payloads|
  {
    if payloads != [] {
      var front := payloads[..|payloads| - 1];
      assert forall k :: 0 <= k < |front| ==> front[k] == payloads[k];
      LatencyWithoutDone(front, parse);
    }
  }

  /** The returned latency is that of the last `done` chunk. */
  lemma {:induction false} LatencyOfLastDone(payloads: seq<string>, k: nat, parse: string -> Option<Value>)
    requires k < |payloads| && IsDoneChunk(parse(payloads[k]))
    requires forall j :: k < j < |payloads| ==> !IsDoneChunk(parse(payloads[j]))
    ensures DispatchAll(Start, payloads, parse).latency == Prop(parse(payloads[k]).value, "latency")
    decreases |payloads|
  {
    var front, last := payloads[..|payloads| - 1], payloads[|payloads| - 1];
    var q := DispatchAll(Start, front, parse);
    assert DispatchAll(Start, payloads, parse) == Dispatch(q, last, parse);
    if k < |front| {
      assert forall j :: k < j < |front| ==> front[j] == payloads[j];
      LatencyOfLastDone(front, k, parse);
      assert !IsDoneChunk(parse(last));
    }
  }

  /** Once the lines read so far hold `[DONE]`, the rest of the input adds no payload. */
  lemma DoneStopsReading(chunks: seq<string>, i: nat)
    requires i < |chunks| && ReachesDone(CompleteLines(Concat(chunks[..i + 1])))
    ensures Payloads(CompleteLines(Concat(chunks))) == Payloads(CompleteLines(Concat(chunks[..i + 1])))
  {
    ConcatSplitAt(chunks, i + 1);
    DoneStaysDone(Concat(chunks[..i + 1]), Concat(chunks[i + 1..]));
  }

  /** Text read after a `[DONE]` line adds no payload. */
  lemma DoneStaysDone(a: string, b: string)
    requires ReachesDone(CompleteLines(a))
    ensures Payloads(CompleteLines(a + b)) == Payloads(CompleteLines(a))
  {
    CompleteLinesAppend(a, b);
    PayloadsAppend(CompleteLines(a), CompleteLines(Tail(a) + b));
  }



  /** Meeting `[DONE]` leaves exactly the payloads seen before it to be handled. */
  lemma DoneEndsReading(before: seq<string>, complete: seq<string>, j: nat)
    requires j < |complete| && IsDoneLine(complete[j])
    requires !ReachesDone(before + complete[..j])
    ensures ReachesDone(before + complete)
    ensures Payloads(before + complete) == Payloads(before + complete[..j])
  {
    var rest := complete[j + 1..];
    assert before + complete == (before + complete[..j]) + ([complete[j]] + rest) by {
      assert complete == complete[..j] + [complete[j]] + complete[j + 1..];
    }
    assert (before + complete)[|before| + j] == complete[j];
    PayloadsAppend(before + complete[..j], [complete[j]] + rest);
    PayloadsCons(complete[j], rest);
  }


  /** Handling one more line that is not `[DONE]`. */
  lemma HandleLine(handled: seq<string>, line: string, parse: string -> Option<Value>)
    requires !ReachesDone(handled) && !IsDoneLine(line)
    ensures !ReachesDone(handled + [line])
    ensures DispatchAll(Start, Payloads(handled + [line]), parse)
         == if DataPrefix <= line then Dispatch(DispatchAll(Start, Payloads(handled), parse), Payload(line), parse)
            else DispatchAll(Start, Payloads(handled), parse)
  {
    PayloadsAppend(handled, [line]);
    PayloadsCons(line, []);
    assert [line] + [] == [line];
    if DataPrefix <= line {
      DispatchAllAppend(Start, Payloads(handled), [Payload(line)], parse);
      assert [Payload(line)][..0] == [];
    } else {
      assert Payloads(handled) + [] == Payloads(handled);
    }
  }

  /**
   * The `for (const line of lines)` loop of `sendMessageStream`: the lines of
   * one read are handled in order after the lines `seen` of earlier reads;
   * `done` says that a `[DONE]` line was met, which ends the whole read.
   */
  method HandleLines(ghost seen: seq<string>, complete: seq<string>, progress: Progress, parse: string -> Option<Value>)
    returns (done: bool, next: Progress)
    requires !ReachesDone(seen)
    requires progress == DispatchAll(Start, Payloads(seen), parse)
    ensures done == ReachesDone(seen + complete)
    ensures next == DispatchAll(Start, Payloads(seen + complete), parse)
  {
    next := progress;
    ghost var handled := seen;
    assert seen + complete[..0] == handled;
    var j := 0;
    while j < |complete|
      invariant 0 <= j <= |complete|
      invariant handled == seen + complete[..j]
      invariant !ReachesDone(handled)
      invariant next == DispatchAll(Start, Payloads(handled), parse)
    {
      var line := complete[j];
      if DataPrefix <= line {
        var data := Payload(line);
        if data == DoneMarker {
          DoneEndsReading(seen, complete, j);
          return true, next;
        }
        HandleLine(handled, line, parse);
        next := Dispatch(next, data, parse);
      } else {
        HandleLine(handled, line, parse);
      }
      PrefixAfterGrows(seen, complete, j);
      handled := handled + [line];
      j := j + 1;
    }
    assert complete[..j] == complete;
    return false, next;
  }

  /**
   * One pass of the `while (true)` loop of `sendMessageStream` after a read:
   * the decoded chunk is appended to the buffer, the text is split on line
   * feeds, the last piece stays in the buffer and the complete lines are
   * handled. `read` is all the text read before this chunk.
   */
  method ReadChunk(ghost read: string, buffer: string, chunk: string, progress: Progress, parse: string -> Option<Value>)
    returns (done: bool, rest: string, next: Progress)
    requires buffer == Tail(read) && !ReachesDone(CompleteLines(read))
    requires progress == DispatchAll(Start, Payloads(CompleteLines(read)), parse)
    ensures done == ReachesDone(CompleteLines(read + chunk))
    ensures rest == Tail(read + chunk)
    ensures next == DispatchAll(Start, Payloads(CompleteLines(read + chunk)), parse)
  {
    CompleteLinesAppend(read, chunk);
    var text := buffer + chunk;
    var lines := Split(text);
    var complete := lines[..|lines| - 1];
    rest := lines[|lines| - 1];
    assert complete == CompleteLines(text) && rest == Tail(text);
    done, next := HandleLines(CompleteLines(read), complete, progress, parse);
  }

  /**
   * `sendMessageStream` from the first read on. It always reports success;
   * the callbacks and the latency are those of the payloads of the complete
   * lines of the whole input, up to the first `[DONE]`.
   */
  method SendMessageStream(chunks: seq<string>, parse: string -> Option<Value>)
    returns (success: bool, latency: Value, calls: seq<Callback>)
    ensures success
    ensures Progress(calls, latency) == DispatchAll(Start, Payloads(CompleteLines(Concat(chunks))), parse)
  {
    var buffer := "";
    var progress := Start;
    var i := 0;
    while i < |chunks|
      invariant 0 <= i <= |chunks|
      invariant buffer == Tail(Concat(chunks[..i]))
      invariant !ReachesDone(CompleteLines(Concat(chunks[..i])))
      invariant progress == DispatchAll(Start, Payloads(CompleteLines(Concat(chunks[..i]))), parse)
    {
      ConcatPrefixGrows(chunks, i);
      var done;
      done, buffer, progress := ReadChunk(Concat(chunks[..i]), buffer, chunks[i], progress, parse);
      if done {
        DoneStopsReading(chunks, i);
        return true, progress.latency, progress.calls;
      }
      i := i + 1;
    }
    assert chunks[..i] == chunks;
    return true, progress.latency, progress.calls;
  }

  // ----------------------------------------------------------------------
  // The two ends together
  // ----------------------------------------------------------------------

  /** What the server may write without breaking a frame: one trimmed line that is not the marker. */
  predicate WireSafe(payload: string)
  {
    '\n' !in payload && Trim(payload) == payload && payload != DoneMarker
  }

  /** One frame completes its `data:` line and a blank line. */
  lemma FrameLines(payload: string, rest: string)
    requires '\n' !in payload
    ensures CompleteLines(Frame(payload) + rest) == [DataPrefix + payload, ""] + CompleteLines(rest)
  {
    var line := DataPrefix + payload;
    NoLineFeedConcat(DataPrefix, payload);
    OneLine(line);
    OneLine("");
    assert "" + "\n" == "\n";
    assert Frame(payload) + rest == (line + "\n") + ("\n" + rest);
    CompleteLinesAppend(line + "\n", "\n" + rest);
    assert Tail(line + "\n") + ("\n" + rest) == "\n" + rest;
    CompleteLinesAppend("\n", rest);
    assert Tail("\n") + rest == rest;
    assert CompleteLines("\n" + rest) == [""] + CompleteLines(rest);
  }

  /** The lines a sequence of frames completes: each `data:` line followed by a blank one. */
  function FramedLines(payloads: seq<string>): seq<string>
  {
    if payloads == [] then [DataPrefix + DoneMarker, ""]
    else [DataPrefix + payloads[0], ""] + FramedLines(payloads[1..])
  }

  lemma {:induction false} ServerTextLines(payloads: seq<string>)
    requires forall k :: 0 <= k < |payloads| ==> '\n' !in payloads[k]
    ensures CompleteLines(ServerText(payloads)) == FramedLines(payloads)
    decreases |payloads|
  {
    if payloads == [] {
      assert ServerText(payloads) == Frame(DoneMarker) + "";
      FrameLines(DoneMarker, "");
      NoLineFeedNoLine("");
    } else {
      ServerTextLines(payloads[1..]);
      FrameLines(payloads[0], ServerText(payloads[1..]));
    }
  }

  /** The `[DONE]` frame's line is recognised as the marker. */
  lemma DoneLineIsDone()
    ensures IsDoneLine(DataPrefix + DoneMarker)
  {
    var line := DataPrefix + DoneMarker;
    assert line[|DataPrefix|..] == DoneMarker;
    TrimmedFixed(DoneMarker);
  }

  /** A frame's `data:` line carries its payload back out. */
  lemma DataLine(payload: string)
    requires WireSafe(payload)
    ensures DataPrefix <= DataPrefix + payload
    ensures Payload(DataPrefix + payload) == payload && !IsDoneLine(DataPrefix + payload)
  {
    assert (DataPrefix + payload)[|DataPrefix|..] == payload;
  }

  /** One frame in front gives its payload in front. */
  lemma FramedStep(p: string, others: seq<string>)
    requires WireSafe(p)
    ensures Payloads(FramedLines([p] + others)) == [p] + Payloads(FramedLines(others))
  {
    var line, tail := DataPrefix + p, FramedLines(others);
    DataLine(p);
    assert ([p] + others)[1..] == others;
    assert FramedLines([p] + others) == [line] + ([""] + tail);
    PayloadsCons(line, [""] + tail);
    PayloadsCons("", tail);
  }

  lemma {:induction false} PayloadsOfFramedLines(payloads: seq<string>)
    requires forall k :: 0 <= k < |payloads| ==> WireSafe(payloads[k])
    ensures Payloads(FramedLines(payloads)) == payloads
    decreases |payloads|
  {
    if payloads == [] {
      DoneLineIsDone();
      PayloadsCons(DataPrefix + DoneMarker, [""]);
    } else {
      var others := payloads[1..];
      assert forall k :: 0 <= k < |others| ==> others[k] == payloads[k + 1];
      PayloadsOfFramedLines(others);
      HeadTail(payloads);
      FramedStep(payloads[0], others);
    }
  }


  /** The client recovers exactly the payloads the server framed. */
  lemma RoundTrip(payloads: seq<string>)
    requires forall k :: 0 <= k < |payloads| ==> WireSafe(payloads[k])
    ensures Payloads(CompleteLines(ServerText(payloads))) == payloads
  {
    ServerTextLines(payloads);
    PayloadsOfFramedLines(payloads);
  }

  /** However the response body is cut into reads, the client sees the same payloads. */
  lemma AnyChunking(chunks: seq<string>, payloads: seq<string>)
    requires Concat(chunks) == ServerText(payloads)
    requires forall k :: 0 <= k < |payloads| ==> WireSafe(payloads[k])
    ensures Payloads(CompleteLines(Concat(chunks))) == payloads
  {
    RoundTrip(payloads);
  }

  /** What the client should make of one event. */
  function EventEffect(p: Progress, e: Event): Progress
  {
    match e
    case Final(content) => Progress(p.calls + [OnText(content)], p.latency)
    case Tool(tool) => Progress(p.calls + [OnTool(Str(tool))], p.latency)
    case Done(latency) => Progress(p.calls, Num(latency))
    case Error(_) => p
  }

  /** What the client should make of a stream of events. */
  function EventsEffect(events: seq<Event>): Progress
  {
    if events == [] then Start else EventEffect(EventsEffect(events[..|events| - 1]), events[|events| - 1])
  }

  /** The chunk parsed back from an event's JSON has the event's effect. */
  lemma DispatchEvent(p: Progress, e: Event, stringify: Value -> string, parse: string -> Option<Value>)
    requires parse(stringify(EventValue(e))) == Some(EventValue(e))
    ensures Dispatch(p, stringify(EventValue(e)), parse) == EventEffect(p, e)
  {
    var v := EventValue(e);
    PropAt(v.members, 0, "type");
    match e
    case Final(content) =>
      PropAt(v.members, 1, "content");
    case Tool(tool) =>
      PropAt(v.members, 1, "tool");
    case Done(latency) =>
      PropAt(v.members, 1, "latency");
    case Error(message) =>
  }

  /**
   * Given a serialiser whose output `parse` reads back and that never breaks
   * a line, every event reaches the client: finals as text, tool steps as
   * tool notices, the latency of the last `done`; an error event changes nothing.
   */
  lemma {:induction false} EventsReachClient(events: seq<Event>, stringify: Value -> string, parse: string -> Option<Value>)
    requires forall k :: 0 <= k < |events| ==> WireSafe(stringify(EventValue(events[k])))
    requires forall k :: 0 <= k < |events| ==> parse(stringify(EventValue(events[k]))) == Some(EventValue(events[k]))
    ensures DispatchAll(Start, Payloads(CompleteLines(StreamBody(events, stringify))), parse) == EventsEffect(events)
    decreases |events|
  {
    var payloads := WrittenPayloads(events, stringify);
    RoundTrip(payloads);
    DispatchEvents(events, stringify, parse);
  }

  lemma {:induction false} DispatchEvents(events: seq<Event>, stringify: Value -> string, parse: string -> Option<Value>)
    requires forall k :: 0 <= k < |events| ==> parse(stringify(EventValue(events[k]))) == Some(EventValue(events[k]))
    ensures DispatchAll(Start, WrittenPayloads(events, stringify), parse) == EventsEffect(events)
    decreases |events|
  {
    if events != [] {
      var front, last := events[..|events| - 1], events[|events| - 1];
      DropLastOfAppend(WrittenPayloads(front, stringify), [stringify(EventValue(last))]);
      DispatchEvents(front, stringify, parse);
      DispatchEvent(DispatchAll(Start, WrittenPayloads(front, stringify), parse), last, stringify, parse);
    }
  }
}
