/**
 * How the streaming endpoint frames what `processQueryStream` yields: every
 * event serialised to JSON text and written as `data: <json>` followed by a
 * blank line, then a final `data: [DONE]` frame. This is the line layer of
 * Server-Sent Events (section 9.2 of the HTML Living Standard) restricted to
 * single `data:` lines. `stringify` stands for `JSON.stringify`.
 */
module Server {
  import opened Json
  import opened Agent

  const DataPrefix := "data: "
  const DoneMarker := "[DONE]"

  /** One frame: `data: ${payload}\n\n`. */
  function Frame(payload: string): string
  {
    DataPrefix + payload + "\n\n"
  }

  /** A frame is the `data: ` prefix, then the payload itself, then a blank line. */
  lemma FrameLayout(payload: string)
    ensures var r := Frame(payload);
      DataPrefix <= r && |r| == |DataPrefix| + |payload| + 2
      && r[|DataPrefix|..|r| - 2] == payload && r[|r| - 2..] == "\n\n"
  {
  }

  /** The text of the response body for these payloads, ending with the `[DONE]` frame. */
  function ServerText(payloads: seq<string>): string
  {
    if payloads == [] then Frame(DoneMarker) else Frame(payloads[0]) + ServerText(payloads[1..])
  }

  /** The JSON text written for each event, in order. */
  function WrittenPayloads(events: seq<Event>, stringify: Value -> string): (payloads: seq<string>)
    ensures |payloads| == |events|
    ensures forall k :: 0 <= k < |events| ==> payloads[k] == stringify(EventValue(events[k]))
  {
    if events == [] then []
    else WrittenPayloads(events[..|events| - 1], stringify) + [stringify(EventValue(events[|events| - 1]))]
  }

  /** The response body for a stream of events. */
  function StreamBody(events: seq<Event>, stringify: Value -> string): string
  {
    ServerText(WrittenPayloads(events, stringify))
  }

  /** Whatever the payloads, the body ends with the `[DONE]` frame. */
  lemma {:induction false} ServerTextEndsWithDone(payloads: seq<string>)
    ensures var r := ServerText(payloads);
      |Frame(DoneMarker)| <= |r| && r[|r| - |Frame(DoneMarker)|..] == Frame(DoneMarker)
    decreases |payloads|
  {
    if payloads != [] {
      ServerTextEndsWithDone(payloads[1..]);
      var front, rest := Frame(payloads[0]), ServerText(payloads[1..]);
      assert ServerText(payloads) == front + rest;
      assert (front + rest)[|front + rest| - |Frame(DoneMarker)|..] == rest[|rest| - |Frame(DoneMarker)|..];
    }
  }

  /** The body written for any events ends with the `[DONE]` frame. */
  lemma StreamBodyEndsWithDone(events: seq<Event>, stringify: Value -> string)
    ensures var r := StreamBody(events, stringify);
      |Frame(DoneMarker)| <= |r| && r[|r| - |Frame(DoneMarker)|..] == Frame(DoneMarker)
  {
    ServerTextEndsWithDone(WrittenPayloads(events, stringify));
  }
}
