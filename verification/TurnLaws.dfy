/** What a DeepSeek turn makes of its frames, told from the frames themselves. */
module TurnLaws {
  import opened Folds
  import opened Text
  import opened ManagedStreams
  import opened DeepSeekStreams
  import opened StreamLaws

  // ---- the frames that count ---------------------------------------------------------

  predicate Addressed(frame: Frame, sessionId: string) {
    frame.isRequest && match frame.payload
                       case None => false
                       case Some(mux) => mux.sessionId == sessionId
  }

  predicate Breaks(frame: Frame, sessionId: string) {
    Addressed(frame, sessionId) && frame.payload.value.kind == StreamError
  }

  predicate Carries(frame: Frame, sessionId: string) {
    Addressed(frame, sessionId) && frame.payload.value.kind == SessionEvent
  }

  predicate EndsTurn(frame: Frame, sessionId: string) {
    Carries(frame, sessionId) && frame.payload.value.event.TurnEnd?
  }

  predicate Last(frame: Frame, sessionId: string) { Breaks(frame, sessionId) || EndsTurn(frame, sessionId) }

  /** The frames before the first that breaks the stream or ends the turn. */
  function LiveFrames(frames: seq<Frame>, sessionId: string): (live: seq<Frame>)
    ensures live <= frames && forall frame | frame in live :: !Last(frame, sessionId)
    ensures |live| < |frames| ==> Last(frames[|live|], sessionId)
  {
    if frames == [] then []
    else
      var n := |frames| - 1;
      var live := LiveFrames(frames[..n], sessionId);
      if |live| == n && !Last(frames[n], sessionId) then frames else live
  }

  function EventOf(frame: Frame, sessionId: string): seq<Event> {
    if Carries(frame, sessionId) then [frame.payload.value.event] else []
  }

  /** The session events of some frames. */
  function EventsIn(frames: seq<Frame>, sessionId: string): seq<Event> {
    if frames == [] then []
    else EventsIn(frames[..|frames| - 1], sessionId) + EventOf(frames[|frames| - 1], sessionId)
  }

  // ---- what the events have to say -------------------------------------------------------

  function ToolTold(e: Event): seq<Out> {
    if e.ToolCall? && e.name.Some? then [UseTool(e.name.value, "")]
    else if e.ToolResult? && e.result.Some? then
      match e.result.value.error
      case None => [ToolDone("", "(completed)")]
      case Some(name) => [ToolDone("", "(failed: " + name + ")")]
    else []
  }

  /** The text a chunk adds. */
  function ChunkText(e: Event): string {
    if e.AssistantChunk? && e.chunk.Some? && e.chunk.value.isTextDelta then e.chunk.value.text else ""
  }

  function WrittenPart(p: TextPart): string { if p.isText then p.text else "" }

  /** The text of a whole message. */
  function MessageText(e: Event): string {
    if e.AssistantMessage? && e.message.Some? then Gather(WrittenPart, e.message.value.parts) else ""
  }

  function UsageTold(e: Event): Option<Usage> {
    if e.AssistantMessage? && e.message.Some? then e.message.value.usage else None
  }

  /** All chunks so far. */
  function Chunked(events: seq<Event>): string { Gather(ChunkText, events) }

  /** After these chunks, a chunk shows all of them and itself, a message its whole text. */
  function TextsOf(chunked: string, e: Event): seq<string> {
    if ChunkText(e) != "" then [chunked + ChunkText(e)] else if MessageText(e) != "" then [MessageText(e)] else []
  }

  function TextsTold(events: seq<Event>): seq<string> {
    if events == [] then []
    else
      var init, last := events[..|events| - 1], events[|events| - 1];
      TextsTold(init) + TextsOf(Chunked(init), last)
  }

  function LastUsage(events: seq<Event>): Option<Usage> {
    if events == [] then None
    else
      var last := events[|events| - 1];
      if UsageTold(last).Some? then UsageTold(last) else LastUsage(events[..|events| - 1])
  }

  // ---- the state after any frames ----------------------------------------------------------

  ghost predicate Told(st: DeepState, events: seq<Event>) {
    && ToolsOf(st.outs) == Gather(ToolTold, events) && Says(st.outs) == TextsTold(events)
    && st.said == Chunked(events) && (st.emitted <==> TextsTold(events) != [])
    && (TextsTold(events) == [] ==> Chunked(events) == "") && st.usage == LastUsage(events)
  }

  lemma EventsMore(events: seq<Event>, e: Event)
    ensures Gather(ToolTold, events + [e]) == Gather(ToolTold, events) + ToolTold(e)
    ensures Chunked(events + [e]) == Chunked(events) + ChunkText(e)
    ensures TextsTold(events + [e]) == TextsTold(events) + TextsOf(Chunked(events), e)
    ensures LastUsage(events + [e]) == if UsageTold(e).Some? then UsageTold(e) else LastUsage(events)
  {
    GatherExtends(ToolTold, events, e);
    GatherExtends(ChunkText, events, e);
    assert (events + [e])[..|events|] == events;
  }

  /** An event handed on in at most one out. */
  ghost predicate Grows(st: DeepState, st': DeepState, e: Event, more: seq<Out>) {
    && st'.outs == st.outs + more && ToolsOf(more) == ToolTold(e) && Says(more) == TextsOf(st.said, e)
    && st'.said == st.said + ChunkText(e) && (st'.emitted <==> st.emitted || TextsOf(st.said, e) != [])
    && st'.usage == (if UsageTold(e).Some? then UsageTold(e) else st.usage) && st'.turning == st.turning
  }

  lemma GrownTells(st: DeepState, st': DeepState, events: seq<Event>, e: Event, more: seq<Out>)
    requires Told(st, events) && Grows(st, st', e, more)
    ensures Told(st', events + [e])
  {
    EventsMore(events, e);
    ToolsMore(st.outs, more);
    GatherAppend(SayOf, st.outs, more);
  }

  /** One out. */
  lemma OneOut(out: Out)
    ensures ToolsOf([out]) == if IsTool(out) then [out] else []
    ensures Says([out]) == if out.Say? then [out.text] else []
  {
    GatherOne((x: Out) => if IsTool(x) then [x] else [], out);
    GatherOne(SayOf, out);
  }

  lemma OutMore(outs: seq<Out>, out: Out)
    ensures ToolsOf(outs + [out]) == ToolsOf(outs) + if IsTool(out) then [out] else []
    ensures Says(outs + [out]) == Says(outs) + if out.Say? then [out.text] else []
  {
    OneOut(out);
    ToolsMore(outs, [out]);
    GatherAppend(SayOf, outs, [out]);
  }

  lemma Nothing<T>(s: seq<T>)
    ensures s + [] == s
  {
  }

  lemma {:induction false} WrittenIs(parts: seq<TextPart>)
    ensures Gather(WrittenPart, parts) == Gather(DeepSeekStreams.TextOf, parts)
  {
    if parts != [] {
      WrittenIs(parts[..|parts| - 1]);
    }
  }

  function OutsOf(said: string, e: Event): seq<Out> {
    if TextsOf(said, e) != [] then [Say(TextsOf(said, e)[0])] else ToolTold(e)
  }

  lemma QuietGrows(st: DeepState, e: Event)
    requires OutsOf(st.said, e) == [] && !e.TurnEnd?
    ensures Grows(st, Heard(st, e), e, [])
  {
    Nothing(st.outs);
    Nothing(st.said);
    if e.AssistantMessage? && e.message.Some? {
      WrittenIs(e.message.value.parts);
    }
  }

  lemma ToolGrows(st: DeepState, e: Event)
    requires ToolTold(e) != []
    ensures Grows(st, Heard(st, e), e, ToolTold(e))
  {
    OneOut(ToolTold(e)[0]);
    Nothing(st.said);
  }

  lemma ChunkGrows(st: DeepState, e: Event)
    requires ChunkText(e) != ""
    ensures Grows(st, Heard(st, e), e, [Say(st.said + ChunkText(e))])
  {
    OneOut(Say(st.said + ChunkText(e)));
  }

  lemma MessageGrows(st: DeepState, e: Event)
    requires MessageText(e) != ""
    ensures Grows(st, Heard(st, e), e, [Say(MessageText(e))])
  {
    OneOut(Say(MessageText(e)));
    Nothing(st.said);
    WrittenIs(e.message.value.parts);
  }

  lemma EventTells(st: DeepState, e: Event, events: seq<Event>)
    requires Told(st, events) && !e.TurnEnd?
    ensures Told(Heard(st, e), events + [e]) && Heard(st, e).turning == st.turning
  {
    if ToolTold(e) != [] {
      ToolGrows(st, e);
    } else if ChunkText(e) != "" {
      ChunkGrows(st, e);
    } else if MessageText(e) != "" {
      MessageGrows(st, e);
    } else {
      QuietGrows(st, e);
    }
    GrownTells(st, Heard(st, e), events, e, OutsOf(st.said, e));
  }

  /** As long as no frame broke the stream or ended the turn. */
  lemma {:induction false} OpenTells(frames: seq<Frame>, sessionId: string)
    requires forall frame | frame in frames :: !Last(frame, sessionId)
    ensures Reached(frames, sessionId).turning.Open?
    ensures Told(Reached(frames, sessionId), EventsIn(frames, sessionId))
  {
    if frames != [] {
      var init, last := frames[..|frames| - 1], frames[|frames| - 1];
      assert frames == init + [last];
      assert last in frames;
      OpenTells(init, sessionId);
      Nothing(EventsIn(init, sessionId));
      if Carries(last, sessionId) {
        EventTells(Reached(init, sessionId), last.payload.value.event, EventsIn(init, sessionId));
      }
    }
  }

  /** How a turn ends: at its last frame, or because reading failed before any. */
  function ErrorOf(frames: seq<Frame>, sessionId: string, lost: string): Option<string> {
    var n := |LiveFrames(frames, sessionId)|;
    if n == |frames| then Some(lost)
    else if Breaks(frames[n], sessionId) then Some("stream error from dsh")
    else if frames[n].payload.value.event.failed then Some("deepseek turn ended with error")
    else None
  }

  predicate Finished(frames: seq<Frame>, sessionId: string) {
    var n := |LiveFrames(frames, sessionId)|;
    n < |frames| && EndsTurn(frames[n], sessionId)
  }

  lemma ClosingTells(st: DeepState, frame: Frame, sessionId: string, events: seq<Event>)
    requires st.turning.Open? && Told(st, events) && Last(frame, sessionId)
    ensures
      var st' := DeepSeekStreams.Next(st, frame, sessionId);
      && st'.turning.Over? && st'.usage == LastUsage(events) && ToolsOf(st'.outs) == Gather(ToolTold, events)
      && Says(st'.outs)
         == TextsTold(events) + (if EndsTurn(frame, sessionId) && TextsTold(events) == [] then [""] else [])
      && st'.turning.error
         == if Breaks(frame, sessionId) then Some("stream error from dsh")
            else if frame.payload.value.event.failed then Some("deepseek turn ended with error") else None
  {
    Nothing(TextsTold(events));
    Nothing(Gather(ToolTold, events));
    Nothing(st.outs);
    OutMore(st.outs, Say(st.said));
  }

  lemma LastFrame(frames: seq<Frame>, sessionId: string)
    ensures
      var n := |LiveFrames(frames, sessionId)|;
      && Reached(frames[..n], sessionId).turning.Open?
      && Told(Reached(frames[..n], sessionId), EventsIn(frames[..n], sessionId))
      && (n < |frames| ==>
            && DeepSeekStreams.Next(Reached(frames[..n], sessionId), frames[n], sessionId).turning.Over?
            && Reached(frames, sessionId)
               == DeepSeekStreams.Next(Reached(frames[..n], sessionId), frames[n], sessionId))
  {
    var n := |LiveFrames(frames, sessionId)|;
    assert LiveFrames(frames, sessionId) == frames[..n];
    OpenTells(frames[..n], sessionId);
    if n < |frames| {
      OneMoreFrame(frames, n, sessionId);
      ClosingTells(Reached(frames[..n], sessionId), frames[n], sessionId, EventsIn(frames[..n], sessionId));
    }
  }

  /** A turn shows the tools and the texts of the events before its end, and one empty
      text if it ends without any; its usage is the last one reported, its error that of
      its last frame or of reading. */
  lemma TurnTells(frames: seq<Frame>, sessionId: string, lost: string)
    ensures
      var st, events := Reached(frames, sessionId), EventsIn(LiveFrames(frames, sessionId), sessionId);
      && ToolsOf(st.outs) == Gather(ToolTold, events)
      && Says(st.outs)
         == TextsTold(events) + (if Finished(frames, sessionId) && TextsTold(events) == [] then [""] else [])
      && st.usage == LastUsage(events) && Fault(st, lost) == ErrorOf(frames, sessionId, lost)
  {
    var n := |LiveFrames(frames, sessionId)|;
    assert LiveFrames(frames, sessionId) == frames[..n];
    LastFrame(frames, sessionId);
    if n == |frames| {
      assert frames[..n] == frames;
      Nothing(TextsTold(EventsIn(frames, sessionId)));
    } else {
      ClosingTells(Reached(frames[..n], sessionId), frames[n], sessionId, EventsIn(frames[..n], sessionId));
    }
  }
}
