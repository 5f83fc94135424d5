/** Re-assembly of streamed agent.message deltas into text, in the harness and
    in the eval worker. */
module Assemble {
  import opened Folds
  import opened Text
  import opened Wire

  /** Event types that end a run of contiguous deltas. */
  predicate Breaks(e: WireEvent) {
    e.ToolUse? || e.ToolResult? || e.CustomToolUse? || e.UserMessage?
  }

  /** "".join(parts) */
  function Concat(parts: seq<string>): string { Gather((part: string) => part, parts) }

  /** Finished segments and the pieces of the open one. */
  function Scan(events: seq<WireEvent>): (seq<string>, seq<string>) {
    if events == [] then ([], [])
    else
      var (done, current) := Scan(events[..|events| - 1]);
      var e := events[|events| - 1];
      if e.AgentMessage? then (done, if e.text == "" then current else current + [e.text])
      else if Breaks(e) then (Flushed(done, current), [])
      else (done, current)
  }

  function Flushed(done: seq<string>, current: seq<string>): seq<string> {
    if current == [] then done else done + [Concat(current)]
  }

  function Segments(events: seq<WireEvent>): seq<string> {
    var (done, current) := Scan(events);
    Flushed(done, current)
  }

  /** The last segment that is not blank, trimmed; "" when all are blank. */
  function LastText(segments: seq<string>, space: char -> bool): string {
    if segments == [] then ""
    else
      var text := Trim(segments[|segments| - 1], space);
      if text != "" then text else LastText(segments[..|segments| - 1], space)
  }

  method CollectSegments(events: seq<WireEvent>) returns (segments: seq<string>)
    ensures segments == Segments(events)
  {
    segments := [];
    var current: seq<string> := [];
    for i := 0 to |events|
      invariant (segments, current) == Scan(events[..i])
    {
      assert events[..i + 1][..i] == events[..i];
      if events[i].AgentMessage? {
        if events[i].text != "" {
          current := current + [events[i].text];
        }
      } else if Breaks(events[i]) {
        if current != [] {
          segments := segments + [Concat(current)];
          current := [];
        }
      }
    }
    assert events[..|events|] == events;
    if current != [] {
      segments := segments + [Concat(current)];
    }
  }

  method LastNonBlank(segments: seq<string>, space: char -> bool) returns (text: string)
    ensures text == LastText(segments, space)
  {
    var i := |segments|;
    assert segments[..i] == segments;
    while i > 0
      invariant 0 <= i <= |segments|
      invariant LastText(segments[..i], space) == LastText(segments, space)
    {
      i := i - 1;
      assert segments[..i + 1][..i] == segments[..i];
      text := Trim(segments[i], space);
      if text != "" {
        return text;
      }
    }
    return "";
  }

  /** assemble_assistant_text in the harness. */
  method AssembleAssistantText(events: seq<WireEvent>) returns (text: string)
    ensures text == LastText(Segments(events), PySpace)
  {
    var segments := CollectSegments(events);
    text := LastNonBlank(segments, PySpace);
  }

  /** LastAgentOutputFromEvents in the eval worker. */
  method LastAgentOutput(events: seq<WireEvent>) returns (text: string)
    ensures text == LastText(Segments(events), GoSpace)
  {
    var segments := CollectSegments(events);
    text := LastNonBlank(segments, GoSpace);
  }

  ghost predicate Unbroken(events: seq<WireEvent>) {
    forall e | e in events :: !Breaks(e)
  }

  lemma ScanExtends(events: seq<WireEvent>, e: WireEvent)
    requires !Breaks(e)
    ensures Scan(events + [e]).0 == Scan(events).0
    ensures Concat(Scan(events + [e]).1) == Concat(Scan(events).1) + SpokenOf(e)
  {
    assert (events + [e])[..|events|] == events;
    if e.AgentMessage? {
      GatherExtends((part: string) => part, Scan(events).1, e.text);
    }
  }

  /** Deltas after the last break land in the open segment, joined in order. */
  lemma {:induction false} ScanUnbroken(before: seq<WireEvent>, out: seq<WireEvent>)
    requires Unbroken(out)
    ensures Scan(before + out).0 == Scan(before).0
    ensures Concat(Scan(before + out).1) == Concat(Scan(before).1) + Spoken(out)
  {
    if out == [] {
      assert before + out == before;
    } else {
      var n := |out| - 1;
      ScanUnbroken(before, out[..n]);
      ScanExtends(before + out[..n], out[n]);
      assert before + out == before + out[..n] + [out[n]];
      var said := Concat(Scan(before).1);
      assert said + Spoken(out[..n]) + SpokenOf(out[n]) == said + (Spoken(out[..n]) + SpokenOf(out[n]));
    }
  }

  /** What a consumer reads back after a break (or from the start) is exactly
      what was said since, trimmed. */
  lemma ReadsBack(before: seq<WireEvent>, out: seq<WireEvent>, space: char -> bool)
    requires before == [] || Breaks(before[|before| - 1])
    requires Unbroken(out) && Trim(Spoken(out), space) != ""
    ensures LastText(Segments(before + out), space) == Trim(Spoken(out), space)
  {
    ScanUnbroken(before, out);
    assert Scan(before).1 == [];
    var (done, current) := Scan(before + out);
    assert Concat(current) == Spoken(out);
    TrimTight("", space);
    assert current != [];
    assert Segments(before + out) == done + [Spoken(out)];
    assert (done + [Spoken(out)])[..|done|] == done;
  }

  // ---- what separates two texts, by the kinds of events ----------------------

  /** A tool call, its result, or something the user says. */
  predicate Separates(e: WireEvent) {
    match e
    case ToolUse(_, _, _) => true
    case ToolResult(_, _) => true
    case CustomToolUse(_, _, _) => true
    case UserMessage(_) => true
    case AgentMessage(_) => false
    case ThinkingStreamStart(_) => false
    case ThinkingChunk(_, _) => false
    case ThinkingStreamEnd(_) => false
    case Thinking(_, _, _) => false
    case UsageSpan(_) => false
    case ThreadMessageSent(_, _, _) => false
    case ThreadMessageReceived(_, _, _, _) => false
    case OtherEvent(_) => false
  }

  lemma LastTextExtends(segments: seq<string>, segment: string, space: char -> bool)
    ensures LastText(segments + [segment], space)
         == if Trim(segment, space) != "" then Trim(segment, space) else LastText(segments, space)
  {
    assert (segments + [segment])[..|segments|] == segments;
  }

  /** After a tool call, a tool result or a user message only what is said from there on
      counts; when that is blank, the text from before it stands. */
  lemma SeparatesTexts(before: seq<WireEvent>, e: WireEvent, out: seq<WireEvent>, space: char -> bool)
    requires Separates(e) && forall x | x in out :: !Separates(x)
    ensures
      var text := Trim(Spoken(out), space);
      LastText(Segments(before + [e] + out), space) == if text != "" then text else LastText(Segments(before), space)
  {
    assert (before + [e])[..|before|] == before;
    ScanUnbroken(before + [e], out);
    var (done, current) := Scan(before + [e] + out);
    assert done == Segments(before) && Concat(current) == Spoken(out);
    if current != [] {
      LastTextExtends(done, Spoken(out), space);
    } else {
      TrimTight("", space);
    }
  }

  /** Any other event but an agent message leaves no trace, wherever it stands. */
  lemma {:induction false} OthersJoin(a: seq<WireEvent>, e: WireEvent, b: seq<WireEvent>)
    requires !Separates(e) && !e.AgentMessage?
    ensures Scan(a + [e] + b) == Scan(a + b)
  {
    if b == [] {
      assert (a + [e])[..|a|] == a && a + [e] + b == a + [e] && a + b == a;
    } else {
      var n := |b| - 1;
      OthersJoin(a, e, b[..n]);
      assert (a + [e] + b)[..|a| + 1 + n] == a + [e] + b[..n] && (a + b)[..|a| + n] == a + b[..n];
    }
  }

  /** Two texts with none of the four kinds between them are one. */
  lemma OthersNeverSeparate(a: seq<WireEvent>, e: WireEvent, b: seq<WireEvent>)
    requires !Separates(e) && !e.AgentMessage?
    ensures Segments(a + [e] + b) == Segments(a + b)
  {
    OthersJoin(a, e, b);
  }
}
