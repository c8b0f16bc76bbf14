/**
 * The agent's own logic: normalising model output to text, the bounded
 * conversation history kept per region, and turning one run of the agent
 * executor into the events of the streaming endpoint. The language model,
 * the search tool and the clock are inputs: the executor is a function from
 * the request it is given to the run it produces, and today's date and the
 * measured latency are parameters.
 */
module Agent {
  import opened Text
  import opened Json
  import opened Constants
  import opened Prompts

  // ----------------------------------------------------------------------
  // extractStringContent
  // ----------------------------------------------------------------------

  /** An array item that `filter(item => item?.type === 'text' && item?.text)` keeps. */
  predicate IsTextPart(item: Value)
  {
    Prop(item, "type") == Str("text") && Truthy(Prop(item, "text"))
  }

  /** The `.text` of every kept item, in order, converted as `join` converts it. */
  function KeptTexts(items: seq<Value>): (texts: seq<string>)
    ensures |texts| <= |items|
  {
    if items == [] then []
    else (if IsTextPart(items[0]) then [JsToString(Prop(items[0], "text"))] else []) + KeptTexts(items[1..])
  }

  lemma {:induction false} KeptTextsAppend(a: seq<Value>, b: seq<Value>)
    ensures KeptTexts(a + b) == KeptTexts(a) + KeptTexts(b)
    decreases |a|
  {
    if a != [] {
      HeadOfAppend(a, b);
      KeptTextsAppend(a[1..], b);
      AppendAssoc(KeptTexts([a[0]]), KeptTexts(a[1..]), KeptTexts(b));
      assert KeptTexts(a) == KeptTexts([a[0]]) + KeptTexts(a[1..]);
    } else {
      assert a + b == b;
    }
  }

  /**
   * `extractStringContent(content)`, with `stringify` standing for
   * `JSON.stringify`. A truthy `.text` is returned as it is, so the result is
   * text or that truthy value. A scalar has neither `.text` nor `.content`.
   */
  function ExtractStringContent(content: Value, stringify: Value -> string): (r: Value)
    ensures r.Str? || Truthy(r)
  {
    match content
    case Str(_) => content
    case Arr(items) => Str(Concat(KeptTexts(items)))
    case Obj(_) =>
      if Truthy(Prop(content, "text")) then Prop(content, "text")
      else if Truthy(Prop(content, "content")) then ExtractStringContent(Prop(content, "content"), stringify)
      else Str(stringify(content))
    case _ => if Truthy(content) then Str(stringify(content)) else Str("")
  }

  /** A string comes back unchanged, so extraction is idempotent on its text results. */
  lemma ExtractIdempotent(content: Value, stringify: Value -> string)
    ensures content.Str? ==> ExtractStringContent(content, stringify) == content
    ensures var r := ExtractStringContent(content, stringify);
            r.Str? ==> ExtractStringContent(r, stringify) == r
  {
  }

  /** The text of an array is the text of its first part followed by that of the rest. */
  lemma ExtractArrayAppend(a: seq<Value>, b: seq<Value>, stringify: Value -> string)
    ensures ExtractStringContent(Arr(a + b), stringify)
         == Str(ExtractStringContent(Arr(a), stringify).s + ExtractStringContent(Arr(b), stringify).s)
  {
    KeptTextsAppend(a, b);
    ConcatAppend(KeptTexts(a), KeptTexts(b));
  }

  /** A single text part contributes its `.text`, anything else contributes nothing. */
  lemma ExtractArrayItem(item: Value, stringify: Value -> string)
    ensures IsTextPart(item) ==> ExtractStringContent(Arr([item]), stringify) == Str(JsToString(Prop(item, "text")))
    ensures !IsTextPart(item) ==> ExtractStringContent(Arr([item]), stringify) == Str("")
  {
    assert [item][1..] == [];
  }

  /** Removing an item that is not a text part does not change the text of an array. */
  lemma ExtractSkipsNonText(a: seq<Value>, item: Value, b: seq<Value>, stringify: Value -> string)
    requires !IsTextPart(item)
    ensures ExtractStringContent(Arr(a + [item] + b), stringify) == ExtractStringContent(Arr(a + b), stringify)
  {
    assert [item][0] == item && [item][1..] == [];
    assert KeptTexts([item]) == [];
    KeptTextsAppend(a + [item], b);
    KeptTextsAppend(a, [item]);
    KeptTextsAppend(a, b);
    assert KeptTexts(a) + [] == KeptTexts(a);
  }

  /** On anything that is not a string or an array, a truthy `.text` wins over `.content`. */
  lemma ExtractTextWins(content: Value, stringify: Value -> string)
    requires !content.Str? && !content.Arr?
    requires Truthy(Prop(content, "text"))
    ensures ExtractStringContent(content, stringify) == Prop(content, "text")
  {
  }

  /** Without a truthy `.text`, a truthy `.content` is extracted in its place. */
  lemma ExtractFollowsContent(content: Value, stringify: Value -> string)
    requires !content.Str? && !content.Arr?
    requires !Truthy(Prop(content, "text")) && Truthy(Prop(content, "content"))
    ensures ExtractStringContent(content, stringify) == ExtractStringContent(Prop(content, "content"), stringify)
  {
  }

  /** Falsy values give the empty string; other values without `.text` or `.content` give their JSON text. */
  lemma ExtractFallbacks(content: Value, stringify: Value -> string)
    ensures !Truthy(content) ==> ExtractStringContent(content, stringify) == Str("")
    ensures Truthy(content) && !content.Str? && !content.Arr?
            && !Truthy(Prop(content, "text")) && !Truthy(Prop(content, "content"))
            ==> ExtractStringContent(content, stringify) == Str(stringify(content))
  {
  }

  /** Every `.text` that extraction could return, along the `.content` chain, is a string. */
  predicate TextFieldsAreStrings(content: Value)
  {
    match content
    case Obj(_) =>
      if Truthy(Prop(content, "text")) then Prop(content, "text").Str?
      else if Truthy(Prop(content, "content")) then TextFieldsAreStrings(Prop(content, "content"))
      else true
    case _ => true
  }

  /** When the `.text` fields are strings, extraction really yields a string. */
  lemma {:induction false} ExtractYieldsString(content: Value, stringify: Value -> string)
    requires TextFieldsAreStrings(content)
    ensures ExtractStringContent(content, stringify).Str?
  {
    match content
    case Obj(_) =>
      if !Truthy(Prop(content, "text")) && Truthy(Prop(content, "content")) {
        ExtractYieldsString(Prop(content, "content"), stringify);
      }
    case _ =>
  }

  // ----------------------------------------------------------------------
  // The conversation history
  // ----------------------------------------------------------------------

  /** A `HumanMessage` or an `AIMessage` of `chatHistory`. */
  datatype Turn = Human(text: string) | Ai(content: Value)

  const HistoryLimit: nat := AgentConfig.historyLimit

  /** History alternates Human and Ai turns, starting with Human and ending with Ai. */
  predicate PairAligned(h: seq<Turn>)
  {
    |h| % 2 == 0 && forall i :: 0 <= i < |h| ==> (h[i].Human? <==> i % 2 == 0)
  }

  /** A turn that `addToHistory` can have pushed: non-empty text, truthy content. */
  predicate Meaningful(t: Turn)
  {
    match t
    case Human(text) => text != ""
    case Ai(content) => Truthy(content)
  }

  /** What the history always satisfies: bounded, aligned in exchanges, no empty turn. */
  predicate WellFormedHistory(h: seq<Turn>)
  {
    |h| <= HistoryLimit && PairAligned(h) && forall i :: 0 <= i < |h| ==> Meaningful(h[i])
  }

  /** Whether `addToHistory(userMessage, assistantMessage)` records the exchange. */
  predicate Recordable(userMessage: Value, assistantMessage: Value, stringify: Value -> string)
  {
    JsToString(userMessage) != "" && Truthy(ExtractStringContent(assistantMessage, stringify))
  }

  /** The two turns pushed for one exchange. */
  function Exchange(userMessage: Value, assistantMessage: Value, stringify: Value -> string): seq<Turn>
  {
    [Human(JsToString(userMessage)), Ai(ExtractStringContent(assistantMessage, stringify))]
  }

  /**
   * `chatHistory` after `addToHistory(userMessage, assistantMessage)`: the
   * exchange is pushed when both sides are non-empty, then only the newest
   * `historyLimit` entries are kept.
   */
  function AddedHistory(h: seq<Turn>, userMessage: Value, assistantMessage: Value, stringify: Value -> string): (r: seq<Turn>)
    ensures !Recordable(userMessage, assistantMessage, stringify) ==> r == h
    ensures Recordable(userMessage, assistantMessage, stringify) ==>
              |r| == (if |h| + 2 <= HistoryLimit then |h| + 2 else HistoryLimit)
              && r == (h + Exchange(userMessage, assistantMessage, stringify))[|h| + 2 - |r|..]
  {
    if Recordable(userMessage, assistantMessage, stringify) then
      var pushed := h + Exchange(userMessage, assistantMessage, stringify);
      if |pushed| > HistoryLimit then pushed[|pushed| - HistoryLimit..] else pushed
    else h
  }

  lemma AlignedSuffix(s: seq<Turn>, k: nat)
    requires PairAligned(s) && k <= |s| && k % 2 == 0
    ensures PairAligned(s[k..])
  {
    forall i | 0 <= i < |s[k..]| ensures (s[k..][i].Human? <==> i % 2 == 0) {
      assert s[k..][i] == s[k + i];
      assert (k + i) % 2 == i % 2;
    }
  }

  /** Adding an exchange keeps the history well formed, because the limit is even. */
  lemma AddedHistoryWellFormed(h: seq<Turn>, userMessage: Value, assistantMessage: Value, stringify: Value -> string)
    requires WellFormedHistory(h)
    ensures WellFormedHistory(AddedHistory(h, userMessage, assistantMessage, stringify))
  {
    if Recordable(userMessage, assistantMessage, stringify) {
      PushTrimWellFormed(h, Exchange(userMessage, assistantMessage, stringify));
    }
  }

  /** Pushing a meaningful exchange and keeping the newest `HistoryLimit` turns keeps the history well formed. */
  lemma PushTrimWellFormed(h: seq<Turn>, ex: seq<Turn>)
    requires WellFormedHistory(h)
    requires |ex| == 2 && ex[0].Human? && ex[1].Ai? && Meaningful(ex[0]) && Meaningful(ex[1])
    ensures var pushed := h + ex;
      WellFormedHistory(if |pushed| > HistoryLimit then pushed[|pushed| - HistoryLimit..] else pushed)
  {
    PushKeepsShape(h, ex);
    var pushed := h + ex;
    if |pushed| > HistoryLimit {
      HistoryLimitEven();
      TrimKeepsShape(pushed, |pushed| - HistoryLimit);
    }
  }

  /** Pushing a meaningful user turn and a meaningful reply keeps the history aligned and meaningful. */
  lemma PushKeepsShape(h: seq<Turn>, ex: seq<Turn>)
    requires PairAligned(h) && forall i :: 0 <= i < |h| ==> Meaningful(h[i])
    requires |ex| == 2 && ex[0].Human? && ex[1].Ai? && Meaningful(ex[0]) && Meaningful(ex[1])
    ensures PairAligned(h + ex) && forall i :: 0 <= i < |h + ex| ==> Meaningful((h + ex)[i])
  {
    var pushed := h + ex;
    forall i | 0 <= i < |pushed| ensures (pushed[i].Human? <==> i % 2 == 0) && Meaningful(pushed[i]) {
      if i < |h| { assert pushed[i] == h[i]; } else { assert pushed[i] == ex[i - |h|]; }
    }
  }

  /** Dropping an even number of the oldest turns keeps the history aligned and meaningful. */
  lemma TrimKeepsShape(s: seq<Turn>, k: nat)
    requires PairAligned(s) && forall i :: 0 <= i < |s| ==> Meaningful(s[i])
    requires k <= |s| && k % 2 == 0
    ensures PairAligned(s[k..]) && forall i :: 0 <= i < |s[k..]| ==> Meaningful(s[k..][i])
  {
    AlignedSuffix(s, k);
    forall i | 0 <= i < |s[k..]| ensures Meaningful(s[k..][i]) {
      assert s[k..][i] == s[k + i];
    }
  }

  /** With a full history, a new exchange evicts exactly the oldest one. */
  lemma AddedHistoryEvictsOldest(h: seq<Turn>, userMessage: Value, assistantMessage: Value, stringify: Value -> string)
    requires WellFormedHistory(h) && |h| == HistoryLimit
    requires Recordable(userMessage, assistantMessage, stringify)
    ensures AddedHistory(h, userMessage, assistantMessage, stringify) == h[2..] + Exchange(userMessage, assistantMessage, stringify)
  {
    var pushed := h + Exchange(userMessage, assistantMessage, stringify);
    assert pushed[2..] == h[2..] + Exchange(userMessage, assistantMessage, stringify);
  }

  /** The newest exchange always survives the trimming. */
  lemma AddedHistoryEndsWithExchange(h: seq<Turn>, userMessage: Value, assistantMessage: Value, stringify: Value -> string)
    requires Recordable(userMessage, assistantMessage, stringify)
    ensures var r := AddedHistory(h, userMessage, assistantMessage, stringify);
            |r| >= 2 && r[|r| - 2..] == Exchange(userMessage, assistantMessage, stringify)
  {
    HistoryLimitEven();
    var pushed := h + Exchange(userMessage, assistantMessage, stringify);
    var r := AddedHistory(h, userMessage, assistantMessage, stringify);
    assert r[|r| - 2..] == pushed[|pushed| - 2..];
  }

  /** `chatHistory` as `handleRegionChange(region)` leaves it. */
  function HistoryForRegion(h: seq<Turn>, currentRegion: string, region: string): (r: seq<Turn>)
    ensures region == currentRegion ==> r == h
    ensures region != currentRegion ==> r == []
  {
    if region != currentRegion then [] else h
  }

  // ----------------------------------------------------------------------
  // One run of the agent executor and the events it produces
  // ----------------------------------------------------------------------

  /** What the executor is given: the region's system prompt, the history and the user's input. */
  datatype AgentRequest = AgentRequest(systemPrompt: string, chatHistory: seq<Turn>, input: Value)

  /** An intermediate step; only `step.action.tool` is read. */
  datatype Step = Step(tool: string)

  /** A streamed chunk: `output` may be any value, `intermediateSteps` may be absent. */
  datatype Chunk = Chunk(output: Value, intermediateSteps: Option<seq<Step>>)

  /** A streamed run: the chunks delivered, then possibly a failure with its message. */
  datatype StreamRun = StreamRun(chunks: seq<Chunk>, failure: Option<string>)

  /** A non-streamed run: the result's `output`, or the message of what was thrown. */
  datatype InvokeRun = Returned(output: Value) | Threw(message: string)

  /** The objects that `processQueryStream` yields. */
  datatype Event = Final(content: Value) | Tool(tool: string) | Done(latency: int) | Error(message: string)

  const NotInitialized := "Agent not initialized"
  const ToolNotice := "Searching..."

  /** The event as the object the endpoint serialises. */
  function EventValue(e: Event): (v: Value)
    ensures v.Obj?
  {
    match e
    case Final(content) => Obj([Member("type", Str("final")), Member("content", content)])
    case Tool(tool) => Obj([Member("type", Str("tool")), Member("tool", Str(tool)), Member("content", Str(ToolNotice))])
    case Done(latency) => Obj([Member("type", Str("done")), Member("latency", Num(latency))])
    case Error(message) => Obj([Member("type", Str("error")), Member("content", Str(message))])
  }

  /** The object literal of every event reads back as its `type` tag and its own fields. */
  lemma EventFields(e: Event)
    ensures var v := EventValue(e);
      match e
      case Final(content) => Prop(v, "type") == Str("final") && Prop(v, "content") == content
      case Tool(tool) =>
        Prop(v, "type") == Str("tool") && Prop(v, "tool") == Str(tool) && Prop(v, "content") == Str(ToolNotice)
      case Done(latency) => Prop(v, "type") == Str("done") && Prop(v, "latency") == Num(latency)
      case Error(message) => Prop(v, "type") == Str("error") && Prop(v, "content") == Str(message)
  {
    var v := EventValue(e);
    PropAt(v.members, 0, "type");
    match e
    case Final(_) =>
      PropAt(v.members, 1, "content");
    case Tool(_) =>
      PropAt(v.members, 1, "tool");
      PropAt(v.members, 2, "content");
    case Done(_) =>
      PropAt(v.members, 1, "latency");
    case Error(_) =>
      PropAt(v.members, 1, "content");
  }

  /** One `tool` event per step, in order. */
  function ToolEvents(steps: seq<Step>): (ev: seq<Event>)
    ensures |ev| == |steps|
    ensures forall j :: 0 <= j < |steps| ==> ev[j] == Tool(steps[j].tool)
  {
    if steps == [] then [] else ToolEvents(steps[..|steps| - 1]) + [Tool(steps[|steps| - 1].tool)]
  }

  /** The events one chunk yields: its output if truthy, otherwise its steps. */
  function ChunkEventsOf(c: Chunk): (ev: seq<Event>)
    ensures Truthy(c.output) ==> ev == [Final(c.output)]
    ensures !Truthy(c.output) ==> forall k :: 0 <= k < |ev| ==> ev[k].Tool?
    ensures !Truthy(c.output) && c.intermediateSteps.None? ==> ev == []
  {
    if Truthy(c.output) then [Final(c.output)]
    else if c.intermediateSteps.Some? then ToolEvents(c.intermediateSteps.value)
    else []
  }

  /** The events of a sequence of chunks, chunk by chunk. */
  function ChunkEvents(cs: seq<Chunk>): seq<Event>
  {
    if cs == [] then [] else ChunkEvents(cs[..|cs| - 1]) + ChunkEventsOf(cs[|cs| - 1])
  }

  /** The loop yields only `final` and `tool` events, and every `final` carries a truthy output. */
  lemma {:induction false} ChunkEventsKinds(cs: seq<Chunk>)
    ensures forall k :: 0 <= k < |ChunkEvents(cs)| ==> ChunkEvents(cs)[k].Final? || ChunkEvents(cs)[k].Tool?
    ensures forall k :: 0 <= k < |ChunkEvents(cs)| && ChunkEvents(cs)[k].Final? ==> Truthy(ChunkEvents(cs)[k].content)
    decreases |cs|
  {
    if cs != [] {
      var p, c := cs[..|cs| - 1], cs[|cs| - 1];
      ChunkEventsKinds(p);
      var ev: seq<Event>, tail: seq<Event> := ChunkEvents(p), ChunkEventsOf(c);
      var all: seq<Event> := ev + tail;
      assert ChunkEvents(cs) == all;
      forall k | 0 <= k < |all|
        ensures all[k].Final? || all[k].Tool?
        ensures all[k].Final? ==> Truthy(all[k].content)
      {
        if k < |ev| { assert all[k] == ev[k]; } else { assert all[k] == tail[k - |ev|]; }
      }
    }
  }

  /** `fullResponse` after the loop: the last truthy output, `''` when there is none. */
  function LastOutput(cs: seq<Chunk>): (r: Value)
    ensures Truthy(r) || r == Str("")
  {
    if cs == [] then Str("")
    else if Truthy(cs[|cs| - 1].output) then cs[|cs| - 1].output
    else LastOutput(cs[..|cs| - 1])
  }

  /** Everything `processQueryStream` yields for a run of an initialised agent. */
  function StreamEvents(run: StreamRun, latency: int): (ev: seq<Event>)
    ensures |ev| >= 1
    ensures forall k :: 0 <= k < |ev| - 1 ==> ev[k].Final? || ev[k].Tool?
    ensures run.failure.Some? ==> ev[|ev| - 1] == Error(run.failure.value)
    ensures run.failure.None? ==> ev[|ev| - 1] == Done(latency)
  {
    ChunkEventsKinds(run.chunks);
    ChunkEvents(run.chunks) + (if run.failure.Some? then [Error(run.failure.value)] else [Done(latency)])
  }

  /** The history after a streamed run: the exchange is added only after a complete run with a truthy output. */
  function StreamHistory(h: seq<Turn>, userMessage: Value, run: StreamRun, stringify: Value -> string): (r: seq<Turn>)
    ensures run.failure.Some? || !Truthy(LastOutput(run.chunks)) ==> r == h
  {
    if run.failure.None? && Truthy(LastOutput(run.chunks)) then AddedHistory(h, userMessage, LastOutput(run.chunks), stringify)
    else h
  }

  /** Events follow chunk order. */
  lemma {:induction false} ChunkEventsAppend(a: seq<Chunk>, b: seq<Chunk>)
    ensures ChunkEvents(a + b) == ChunkEvents(a) + ChunkEvents(b)
    decreases |b|
  {
    if b == [] {
      assert a + b == a;
    } else {
      var front, last := b[..|b| - 1], b[|b| - 1];
      DropLastOfAppend(a, b);
      ChunkEventsAppend(a, front);
      AppendAssoc(ChunkEvents(a), ChunkEvents(front), ChunkEventsOf(last));
    }
  }


  /** A chunk with a truthy output yields exactly one `final` event; its steps are ignored. */
  lemma ChunkWithOutput(a: seq<Chunk>, c: Chunk, b: seq<Chunk>)
    requires Truthy(c.output)
    ensures ChunkEvents(a + [c] + b) == ChunkEvents(a) + [Final(c.output)] + ChunkEvents(b)
  {
    ChunkEventsAppend(a + [c], b);
    ChunkEventsAppend(a, [c]);
    assert [c][..0] == [];
  }

  /** A chunk without a truthy output yields one `tool` event per intermediate step. */
  lemma ChunkWithSteps(a: seq<Chunk>, c: Chunk, b: seq<Chunk>)
    requires !Truthy(c.output) && c.intermediateSteps.Some?
    ensures ChunkEvents(a + [c] + b) == ChunkEvents(a) + ToolEvents(c.intermediateSteps.value) + ChunkEvents(b)
  {
    ChunkEventsAppend(a + [c], b);
    ChunkEventsAppend(a, [c]);
    assert [c][..0] == [];
  }

  /** A chunk with neither a truthy output nor steps yields nothing, wherever it occurs. */
  lemma ChunkWithNothing(a: seq<Chunk>, c: Chunk, b: seq<Chunk>)
    requires !Truthy(c.output) && c.intermediateSteps.None?
    ensures ChunkEvents(a + [c] + b) == ChunkEvents(a) + ChunkEvents(b)
  {
    ChunkEventsAppend(a + [c], b);
    ChunkEventsAppend(a, [c]);
    assert [c][..0] == [];
    assert ChunkEvents([c]) == [];
    assert ChunkEvents(a) + [] == ChunkEvents(a);
  }

  /**
   * The response that reaches the history is the content of the last `final`
   * event; there is none exactly when no chunk had a truthy output.
   */
  lemma {:induction false} LastOutputTruthy(cs: seq<Chunk>)
    ensures Truthy(LastOutput(cs)) <==> exists k :: 0 <= k < |cs| && Truthy(cs[k].output)
    decreases |cs|
  {
    if cs != [] {
      var p := cs[..|cs| - 1];
      LastOutputTruthy(p);
      assert forall k :: 0 <= k < |p| ==> p[k] == cs[k];
    }
  }

  /** Without a truthy output no `final` event is yielded. */
  lemma {:induction false} NoOutputNoFinal(cs: seq<Chunk>)
    requires !Truthy(LastOutput(cs))
    ensures forall k :: 0 <= k < |ChunkEvents(cs)| ==> !ChunkEvents(cs)[k].Final?
    decreases |cs|
  {
    if cs != [] {
      var p, c := cs[..|cs| - 1], cs[|cs| - 1];
      NoOutputNoFinal(p);
      var ev, tail := ChunkEvents(p), ChunkEventsOf(c);
      assert ChunkEvents(cs) == ev + tail;
      assert forall j :: 0 <= j < |tail| ==> !tail[j].Final?;
    }
  }

  /** The returned response is the content of the last `final` event. */
  lemma {:induction false} LastOutputIsLastFinal(cs: seq<Chunk>)
    requires Truthy(LastOutput(cs))
    ensures exists k :: 0 <= k < |ChunkEvents(cs)| && ChunkEvents(cs)[k] == Final(LastOutput(cs))
              && forall j :: k < j < |ChunkEvents(cs)| ==> !ChunkEvents(cs)[j].Final?
    decreases |cs|
  {
    var p, c := cs[..|cs| - 1], cs[|cs| - 1];
    var ev, tail := ChunkEvents(p), ChunkEventsOf(c);
    assert ChunkEvents(cs) == ev + tail;
    if Truthy(c.output) {
      assert ChunkEvents(cs)[|ev|] == Final(LastOutput(cs));
    } else {
      LastOutputIsLastFinal(p);
      assert forall j :: 0 <= j < |tail| ==> !tail[j].Final?;
      var k :| 0 <= k < |ev| && ev[k] == Final(LastOutput(p)) && forall j :: k < j < |ev| ==> !ev[j].Final?;
      assert ChunkEvents(cs)[k] == ev[k];
    }
  }


  /** A complete stream ends with one `done` event and has no other; a failed one has no `done` at all. */
  lemma DoneExactlyOnce(run: StreamRun, latency: int)
    ensures var ev := StreamEvents(run, latency);
            run.failure.None? ==> forall k :: 0 <= k < |ev| ==> (ev[k].Done? <==> k == |ev| - 1)
    ensures var ev := StreamEvents(run, latency);
            run.failure.Some? ==> forall k :: 0 <= k < |ev| ==> !ev[k].Done? && (ev[k].Error? <==> k == |ev| - 1)
  {
  }

  /**
   * The `for await` loop of `processQueryStream`: the events yielded for the
   * chunks, and `fullResponse` as the loop leaves it.
   */
  method StreamChunks(chunks: seq<Chunk>) returns (events: seq<Event>, fullResponse: Value)
    ensures events == ChunkEvents(chunks)
    ensures fullResponse == LastOutput(chunks)
  {
    fullResponse := Str("");
    events := [];
    var i := 0;
    while i < |chunks|
      invariant 0 <= i <= |chunks|
      invariant events == ChunkEvents(chunks[..i])
      invariant fullResponse == LastOutput(chunks[..i])
    {
      var chunk := chunks[i];
      assert chunks[..i + 1][..i] == chunks[..i];
      if Truthy(chunk.output) {
        fullResponse := chunk.output;
        events := events + [Final(chunk.output)];
      } else if chunk.intermediateSteps.Some? {
        var steps := chunk.intermediateSteps.value;
        var j := 0;
        while j < |steps|
          invariant 0 <= j <= |steps|
          invariant events == ChunkEvents(chunks[..i]) + ToolEvents(steps[..j])
        {
          assert steps[..j + 1][..j] == steps[..j];
          AppendAssoc(ChunkEvents(chunks[..i]), ToolEvents(steps[..j]), [Tool(steps[j].tool)]);
          events := events + [Tool(steps[j].tool)];
          j := j + 1;
        }
        assert steps[..j] == steps;
      }
      i := i + 1;
    }
    assert chunks[..i] == chunks;
  }

  /** The reply of `processQuery`. */
  datatype Reply = Reply(response: Value, latency: int, success: bool)

  // ----------------------------------------------------------------------
  // The module-level state of the agent
  // ----------------------------------------------------------------------

  /**
   * The agent module's state: `chatHistory`, `currentRegion`, and whether
   * `agentExecutor` has been set by `initializeAgent`.
   */
  class Session {
    var history: seq<Turn>
    var region: string
    var ready: bool

    ghost predicate Valid()
      reads this
    {
      WellFormedHistory(history)
    }

    /** The state when the module loads. */
    constructor()
      ensures Valid()
      ensures history == [] && region == AgentConfig.defaultRegion && !ready
    {
      history := [];
      region := AgentConfig.defaultRegion;
      ready := false;
    }

    /**
     * `initializeAgent()`. `clientsBuilt` says whether constructing the model
     * and search clients succeeded; when it did not, the previous executor
     * (if any) stays in place.
     */
    method InitializeAgent(clientsBuilt: bool) returns (ok: bool)
      modifies this
      ensures ok == clientsBuilt
      ensures ready == (old(ready) || clientsBuilt)
      ensures history == old(history) && region == old(region)
    {
      if clientsBuilt {
        ready := true;
      }
      ok := clientsBuilt;
    }

    /** `clearMemory()`: empty history, default region. */
    method ClearMemory()
      modifies this
      ensures Valid()
      ensures history == [] && region == AgentConfig.defaultRegion
      ensures ready == old(ready)
    {
      history := [];
      region := AgentConfig.defaultRegion;
    }

    /** `handleRegionChange(r)`: a different region wipes the history; the same region changes nothing. */
    method HandleRegionChange(r: string)
      requires Valid()
      modifies this
      ensures Valid()
      ensures region == r
      ensures history == HistoryForRegion(old(history), old(region), r)
      ensures ready == old(ready)
    {
      if r != region {
        history := [];
        region := r;
      }
    }

    /** `addToHistory(userMessage, assistantMessage)`. */
    method AddToHistory(userMessage: Value, assistantMessage: Value, stringify: Value -> string)
      requires Valid()
      modifies this
      ensures Valid()
      ensures history == AddedHistory(old(history), userMessage, assistantMessage, stringify)
      ensures region == old(region) && ready == old(ready)
    {
      AddedHistoryWellFormed(history, userMessage, assistantMessage, stringify);
      var userContent := JsToString(userMessage);
      var assistantContent := ExtractStringContent(assistantMessage, stringify);
      if userContent != "" && Truthy(assistantContent) {
        history := history + [Human(userContent), Ai(assistantContent)];
        if |history| > HistoryLimit {
          history := history[|history| - HistoryLimit..];
        }
      }
    }

    /**
     * `processQueryStream(userMessage, r)` for one run of the executor, with
     * `agent` giving the run for the request it is handed and `latency` the
     * time measured at the end.
     */
    method ProcessQueryStream(userMessage: Value, r: string, agent: AgentRequest -> StreamRun,
                              currentDate: string, latency: int, stringify: Value -> string)
      returns (events: seq<Event>)
      requires Valid()
      modifies this
      ensures Valid()
      ensures ready == old(ready)
      ensures !old(ready) ==> events == [Error(NotInitialized)] && history == old(history) && region == old(region)
      ensures old(ready) ==> region == r
      ensures old(ready) ==>
                var h0 := HistoryForRegion(old(history), old(region), r);
                var run := agent(AgentRequest(GetSystemPrompt(r, currentDate), h0, userMessage));
                events == StreamEvents(run, latency) && history == StreamHistory(h0, userMessage, run, stringify)
    {
      if !ready {
        events := [Error(NotInitialized)];
        return;
      }
      HandleRegionChange(r);
      var run := agent(AgentRequest(GetSystemPrompt(r, currentDate), history, userMessage));
      var fullResponse;
      events, fullResponse := StreamChunks(run.chunks);
      if run.failure.Some? {
        events := events + [Error(run.failure.value)];
        return;
      }
      if Truthy(fullResponse) {
        AddToHistory(userMessage, fullResponse, stringify);
      }
      events := events + [Done(latency)];
    }

    /** `processQuery(userMessage, r)`: one invocation, with the same request as the streaming path. */
    method ProcessQuery(userMessage: Value, r: string, agent: AgentRequest -> InvokeRun,
                        currentDate: string, latency: int, stringify: Value -> string)
      returns (reply: Reply)
      requires Valid()
      modifies this
      ensures Valid()
      ensures ready == old(ready)
      ensures reply.latency == latency
      ensures !old(ready) ==> reply == Reply(Str("Error: " + NotInitialized), latency, false)
                              && history == old(history) && region == old(region)
      ensures old(ready) ==> region == r
      ensures old(ready) ==>
                var h0 := HistoryForRegion(old(history), old(region), r);
                match agent(AgentRequest(GetSystemPrompt(r, currentDate), h0, userMessage))
                case Returned(output) =>
                  reply == Reply(output, latency, true) && history == AddedHistory(h0, userMessage, output, stringify)
                case Threw(message) =>
                  reply == Reply(Str("Error: " + message), latency, false) && history == h0
    {
      if !ready {
        reply := Reply(Str("Error: " + NotInitialized), latency, false);
        return;
      }
      HandleRegionChange(r);
      var result := agent(AgentRequest(GetSystemPrompt(r, currentDate), history, userMessage));
      match result
      case Threw(message) =>
        reply := Reply(Str("Error: " + message), latency, false);
      case Returned(output) =>
        AddToHistory(userMessage, output, stringify);
        reply := Reply(output, latency, true);
    }
  }
}
