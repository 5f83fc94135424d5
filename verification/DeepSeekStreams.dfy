/** The two event loops of the DeepSeek client: one collects a turn, one streams it. */
module DeepSeekStreams {
  import opened Folds
  import opened Text
  import opened ManagedStreams

  datatype MuxType = StreamError | SessionEvent | OtherMux

  /** A websocket message; `payload` is None when it cannot be decoded. */
  datatype Frame = Frame(isRequest: bool, payload: Option<Mux>)

  datatype Mux = Mux(sessionId: string, kind: MuxType, event: Event)

  /** Session events with their data decoded, None where decoding fails. */
  datatype Event =
    | AssistantChunk(chunk: Option<Chunk>)
    | ToolCall(name: Option<string>)
    | ToolResult(result: Option<Result>)
    | AssistantMessage(message: Option<Message>)
    | TurnEnd(failed: bool)
    | OtherEvent

  datatype Chunk = Chunk(isTextDelta: bool, text: string)

  /** The name of the error of a failed tool. */
  datatype Result = Result(error: Option<string>)

  datatype Message = Message(parts: seq<TextPart>, usage: Option<Usage>)

  datatype TextPart = TextPart(isText: bool, text: string)

  function TextOf(p: TextPart): string { if p.isText then p.text else "" }

  function FullText(m: Message): string { Gather(TextOf, m.parts) }

  // ---- what a frame does -------------------------------------------------------------

  datatype Turning = Open | Over(error: Option<string>)

  datatype DeepState = DeepState(said: string, emitted: bool, usage: Option<Usage>, outs: seq<Out>, turning: Turning)

  const OPENING := DeepState("", false, None, [], Open)

  /** The session event a frame carries for this session, if any. */
  predicate Concerns(frame: Frame, sessionId: string) {
    frame.isRequest && frame.payload.Some? && frame.payload.value.sessionId == sessionId
  }

  function Heard(st: DeepState, e: Event): DeepState {
    match e
    case AssistantChunk(Some(Chunk(true, text))) =>
      if text == "" then st
      else st.(said := st.said + text, emitted := true, outs := st.outs + [Say(st.said + text)])
    case ToolCall(Some(name)) => st.(outs := st.outs + [UseTool(name, "")])
    case ToolResult(Some(Result(error))) =>
      st.(outs := st.outs + [ToolDone("", if error.None? then "(completed)" else "(failed: " + error.value + ")")])
    case AssistantMessage(Some(m)) =>
      var st' := if FullText(m) == "" then st else st.(emitted := true, outs := st.outs + [Say(FullText(m))]);
      if m.usage.None? then st' else st'.(usage := m.usage)
    case TurnEnd(failed) =>
      st.(outs := st.outs + (if st.emitted then [] else [Say(st.said)]),
          turning := Over(if failed then Some("deepseek turn ended with error") else None))
    case _ => st
  }

  function Next(st: DeepState, frame: Frame, sessionId: string): DeepState {
    if !st.turning.Open? || !Concerns(frame, sessionId) then st
    else
      match frame.payload.value.kind
      case StreamError => st.(turning := Over(Some("stream error from dsh")))
      case SessionEvent => Heard(st, frame.payload.value.event)
      case OtherMux => st
  }

  function Reached(frames: seq<Frame>, sessionId: string): DeepState {
    if frames == [] then OPENING
    else Next(Reached(frames[..|frames| - 1], sessionId), frames[|frames| - 1], sessionId)
  }

  /** The turn's error; `lost` is how reading failed once the frames ran out. */
  function Fault(st: DeepState, lost: string): Option<string> {
    if st.turning.Open? then Some(lost) else st.turning.error
  }

  function Turned(frames: seq<Frame>, sessionId: string, lost: string): Ideal {
    var st := Reached(frames, sessionId);
    var error := Fault(st, lost);
    Ideal(st.outs, if error.None? then Ok(None) else Err(error.value))
  }

  lemma {:induction false} ReachedGrows(frames: seq<Frame>, n: nat, sessionId: string)
    requires n <= |frames|
    ensures Reached(frames[..n], sessionId).outs <= Reached(frames, sessionId).outs
    ensures
      var cut := Reached(frames[..n], sessionId);
      cut.turning.Over? ==> Reached(frames, sessionId) == cut
  {
    if n == |frames| {
      assert frames[..n] == frames;
    } else {
      ReachedGrows(frames[..|frames| - 1], n, sessionId);
      assert frames[..|frames| - 1][..n] == frames[..n];
    }
  }

  lemma OneMoreFrame(frames: seq<Frame>, n: nat, sessionId: string)
    requires n < |frames|
    ensures Reached(frames[..n + 1], sessionId) == Next(Reached(frames[..n], sessionId), frames[n], sessionId)
    ensures Next(Reached(frames[..n], sessionId), frames[n], sessionId).outs <= Reached(frames, sessionId).outs
    ensures Next(Reached(frames[..n], sessionId), frames[n], sessionId).turning.Over? ==>
      Reached(frames, sessionId) == Next(Reached(frames[..n], sessionId), frames[n], sessionId)
  {
    assert frames[..n + 1][..n] == frames[..n];
    ReachedGrows(frames, n + 1, sessionId);
  }

  method AppendText(parts: seq<TextPart>) returns (text: string)
    ensures text == Gather(TextOf, parts)
  {
    text := "";
    for i := 0 to |parts|
      invariant text == Gather(TextOf, parts[..i])
    {
      assert parts[..i + 1][..i] == parts[..i];
      if parts[i].isText {
        text := text + parts[i].text;
      } else {
        assert text + [] == text;
      }
    }
    assert parts[..|parts|] == parts;
  }

  // ---- the loop that collects ------------------------------------------------------------

  class Collector {
    var events: seq<Out>
    var usage: Option<Usage>
    var accumulated: string
    var emitted: bool

    constructor ()
      ensures At(OPENING)
    {
      events, usage, accumulated, emitted := [], None, "", false;
    }

    ghost predicate At(st: DeepState)
      reads this
    {
      events == st.outs && usage == st.usage && accumulated == st.said && emitted == st.emitted
    }

    /** One session event; a turn that is over says with which error. */
    method OnEvent(e: Event, ghost st: DeepState) returns (turning: Turning)
      requires At(st) && st.turning.Open?
      modifies this
      ensures At(Heard(st, e)) && turning == Heard(st, e).turning
    {
      turning := Open;
      match e {
        case AssistantChunk(chunk) =>
          if chunk.None? || !chunk.value.isTextDelta || chunk.value.text == "" {
            return;
          }
          accumulated := accumulated + chunk.value.text;
          events := events + [Say(accumulated)];
          emitted := true;
        case ToolCall(name) =>
          if name.None? {
            return;
          }
          events := events + [UseTool(name.value, "")];
        case ToolResult(result) =>
          if result.None? {
            return;
          }
          var content := "(completed)";
          if result.value.error.Some? {
            content := "(failed: " + result.value.error.value + ")";
          }
          events := events + [ToolDone("", content)];
        case AssistantMessage(message) =>
          if message.None? {
            return;
          }
          var text := AppendText(message.value.parts);
          if |text| > 0 {
            events := events + [Say(text)];
            emitted := true;
          }
          if message.value.usage.Some? {
            usage := message.value.usage;
          }
        case TurnEnd(failed) =>
          if !emitted {
            events := events + [Say(accumulated)];
          }
          return Over(if failed then Some("deepseek turn ended with error") else None);
        case OtherEvent =>
      }
    }
  }

  /** collectTurn. */
  method CollectTurn(frames: seq<Frame>, sessionId: string, lost: string)
    returns (events: seq<Out>, usage: Option<Usage>, error: Option<string>)
    ensures
      var st := Reached(frames, sessionId);
      events == st.outs && usage == st.usage && error == Fault(st, lost)
  {
    var c := new Collector();
    for i := 0 to |frames|
      invariant c.At(Reached(frames[..i], sessionId)) && Reached(frames[..i], sessionId).turning.Open?
    {
      OneMoreFrame(frames, i, sessionId);
      var frame := frames[i];
      if !frame.isRequest || frame.payload.None? || frame.payload.value.sessionId != sessionId {
        continue;
      }
      if frame.payload.value.kind.StreamError? {
        return c.events, c.usage, Some("stream error from dsh");
      }
      if !frame.payload.value.kind.SessionEvent? {
        continue;
      }
      var turning := c.OnEvent(frame.payload.value.event, Reached(frames[..i], sessionId));
      if turning.Over? {
        return c.events, c.usage, turning.error;
      }
    }
    assert frames[..|frames|] == frames;
    return c.events, c.usage, Some(lost);
  }

  // ---- the loop that streams ----------------------------------------------------------------

  class Streamer {
    const handler: Handler
    var got: seq<Out>
    var accumulated: string
    var emitted: bool

    constructor (handler: Handler)
      ensures this.handler == handler && At(OPENING)
    {
      this.handler, got, accumulated, emitted := handler, [], "", false;
    }

    ghost predicate At(st: DeepState)
      reads this
    {
      got == st.outs && accumulated == st.said && emitted == st.emitted && Accepts(handler, |got|)
    }

    ghost predicate RefusedIn(outs: seq<Out>, error: Option<string>)
      reads this
    {
      && got != [] && got <= outs && Accepts(handler, |got| - 1)
      && error.Some? && Refusal(handler, |got| - 1) == error
    }

    method OnEvent(ev: Out) returns (error: Option<string>)
      modifies `got
      ensures got == old(got) + [ev] && error == Refusal(handler, |old(got)|)
    {
      var n := |got|;
      got := got + [ev];
      return if handler.Collect? then None else handler.refuses(n);
    }

    /** One session event; the turn is over when it ended or the handler refused. */
    method OnSessionEvent(e: Event, ghost st: DeepState) returns (turning: Turning)
      requires At(st) && st.turning.Open?
      modifies this
      ensures
        var st' := Heard(st, e);
        (At(st') && turning == st'.turning) || (turning.Over? && RefusedIn(st'.outs, turning.error))
    {
      var error: Option<string> := None;
      match e {
        case AssistantChunk(chunk) =>
          if chunk.None? || !chunk.value.isTextDelta || chunk.value.text == "" {
            return Open;
          }
          accumulated := accumulated + chunk.value.text;
          error := OnEvent(Say(accumulated));
          emitted := true;
        case ToolCall(name) =>
          if name.None? {
            return Open;
          }
          error := OnEvent(UseTool(name.value, ""));
        case ToolResult(result) =>
          if result.None? {
            return Open;
          }
          var content := "(completed)";
          if result.value.error.Some? {
            content := "(failed: " + result.value.error.value + ")";
          }
          error := OnEvent(ToolDone("", content));
        case AssistantMessage(message) =>
          if message.None? {
            return Open;
          }
          var text := AppendText(message.value.parts);
          if |text| > 0 {
            error := OnEvent(Say(text));
            emitted := true;
          }
        case TurnEnd(failed) =>
          if !emitted {
            error := OnEvent(Say(accumulated));
            if error.Some? {
              return Over(error);
            }
          }
          return Over(if failed then Some("deepseek turn ended with error") else None);
        case OtherEvent =>
      }
      return if error.Some? then Over(error) else Open;
    }
  }

  function Closed(error: Option<string>): End { if error.None? then Ok(None) else Err(error.value) }

  /** RunTurnStream. */
  method RunTurnStream(frames: seq<Frame>, sessionId: string, lost: string, handler: Handler)
    returns (got: seq<Out>, error: Option<string>)
    ensures Delivered(handler, got, Closed(error), Turned(frames, sessionId, lost))
  {
    var s := new Streamer(handler);
    for i := 0 to |frames|
      invariant s.handler == handler && s.At(Reached(frames[..i], sessionId))
      invariant Reached(frames[..i], sessionId).turning.Open?
    {
      OneMoreFrame(frames, i, sessionId);
      var frame := frames[i];
      if !frame.isRequest || frame.payload.None? || frame.payload.value.sessionId != sessionId {
        continue;
      }
      if frame.payload.value.kind.StreamError? {
        return s.got, Some("stream error from dsh");
      }
      if !frame.payload.value.kind.SessionEvent? {
        continue;
      }
      var turning := s.OnSessionEvent(frame.payload.value.event, Reached(frames[..i], sessionId));
      if turning.Over? {
        return s.got, turning.error;
      }
    }
    assert frames[..|frames|] == frames;
    return s.got, Some(lost);
  }

  /** On every frame stream the two loops produce the same events and the same error,
      unless the callback refuses one; only the collecting one knows the usage. */
  method LoopsAgree(frames: seq<Frame>, sessionId: string, lost: string, refuses: nat -> Option<string>)
    returns (events: seq<Out>, usage: Option<Usage>, error: Option<string>, got: seq<Out>, error': Option<string>)
    ensures got <= events
    ensures (forall k: nat | k < |events| :: refuses(k).None?) ==> got == events && error' == error
    ensures error.None? ==> exists out :: out in events && out.Say?
    ensures forall out | out in events :: !out.Span?
  {
    events, usage, error := CollectTurn(frames, sessionId, lost);
    got, error' := RunTurnStream(frames, sessionId, lost, Callback(refuses));
    assert forall k: nat {:trigger refuses(k)} | k < |events| :: Refusal(Callback(refuses), k) == refuses(k);
    AlwaysSpeaks(frames, sessionId);
  }

  /** A turn that ends says at least one thing, and no usage span is ever emitted. */
  lemma {:induction false} AlwaysSpeaks(frames: seq<Frame>, sessionId: string)
    ensures
      var st := Reached(frames, sessionId);
      && (st.emitted || (st.turning.Over? && st.turning.error.None?) ==> exists out :: out in st.outs && out.Say?)
      && forall out | out in st.outs :: !out.Span?
  {
    if frames != [] {
      var init, last := frames[..|frames| - 1], frames[|frames| - 1];
      AlwaysSpeaks(init, sessionId);
      var st, st' := Reached(init, sessionId), Reached(frames, sessionId);
      if st'.outs != st.outs {
        assert st'.outs[|st'.outs| - 1] in st'.outs;
      }
    }
  }

  // ---- whose text a delta shows -------------------------------------------------------------

  /** The delta a frame adds while the turn is open, "" when none. */
  function DeltaOf(st: DeepState, frame: Frame, sessionId: string): string {
    if st.turning.Open? && Concerns(frame, sessionId) && frame.payload.value.kind.SessionEvent? then
      match frame.payload.value.event
      case AssistantChunk(Some(Chunk(true, text))) => text
      case _ => ""
    else ""
  }

  /** The frame ends an assistant message. */
  predicate EndsMessage(st: DeepState, frame: Frame, sessionId: string) {
    && st.turning.Open? && Concerns(frame, sessionId) && frame.payload.value.kind.SessionEvent?
    && frame.payload.value.event.AssistantMessage? && frame.payload.value.event.message.Some?
  }

  function DeltaAt(frames: seq<Frame>, sessionId: string, n: nat): string
    requires n < |frames|
  {
    DeltaOf(Reached(frames[..n], sessionId), frames[n], sessionId)
  }

  predicate EndsAt(frames: seq<Frame>, sessionId: string, n: nat)
    requires n < |frames|
  {
    EndsMessage(Reached(frames[..n], sessionId), frames[n], sessionId)
  }

  /** Text of the message that is open: the deltas since the last one ended. */
  function Current(frames: seq<Frame>, sessionId: string): string {
    if frames == [] then ""
    else
      var init, last := frames[..|frames| - 1], frames[|frames| - 1];
      if EndsMessage(Reached(init, sessionId), last, sessionId) then ""
      else Current(init, sessionId) + DeltaOf(Reached(init, sessionId), last, sessionId)
  }

  /** Text of the messages that have ended. */
  function Earlier(frames: seq<Frame>, sessionId: string): string {
    if frames == [] then ""
    else
      var init, last := frames[..|frames| - 1], frames[|frames| - 1];
      if EndsMessage(Reached(init, sessionId), last, sessionId) then Earlier(init, sessionId) + Current(init, sessionId)
      else Earlier(init, sessionId)
  }

  lemma {:induction false} SaidSplits(frames: seq<Frame>, sessionId: string)
    ensures Reached(frames, sessionId).said == Earlier(frames, sessionId) + Current(frames, sessionId)
  {
    if frames != [] {
      var init, last := frames[..|frames| - 1], frames[|frames| - 1];
      SaidSplits(init, sessionId);
      NextSaid(Reached(init, sessionId), last, sessionId);
    }
  }

  lemma NextSaid(st: DeepState, frame: Frame, sessionId: string)
    ensures Next(st, frame, sessionId).said == st.said + DeltaOf(st, frame, sessionId)
    ensures EndsMessage(st, frame, sessionId) ==> DeltaOf(st, frame, sessionId) == ""
    ensures DeltaOf(st, frame, sessionId) != "" ==>
      Next(st, frame, sessionId).outs == st.outs + [Say(st.said + DeltaOf(st, frame, sessionId))]
  {
    assert st.said + "" == st.said;
  }

  /** The delta of frame n emits the text of its own message so far. */
  ghost predicate ShowsOwnMessage(frames: seq<Frame>, sessionId: string, n: nat)
    requires n < |frames|
  {
    Reached(frames[..n + 1], sessionId).outs
    == Reached(frames[..n], sessionId).outs + [Say(Current(frames[..n + 1], sessionId))]
  }

  /** A delta shows its own message's text exactly when no earlier message had any. */
  lemma DeltaShows(frames: seq<Frame>, sessionId: string, n: nat)
    requires n < |frames| && DeltaAt(frames, sessionId, n) != ""
    ensures Reached(frames[..n + 1], sessionId).outs
         == Reached(frames[..n], sessionId).outs
            + [Say(Earlier(frames[..n], sessionId) + Current(frames[..n + 1], sessionId))]
    ensures ShowsOwnMessage(frames, sessionId, n) <==> Earlier(frames[..n], sessionId) == ""
  {
    var init, upTo := frames[..n], frames[..n + 1];
    assert upTo[..n] == init && upTo[n] == frames[n];
    SaidSplits(init, sessionId);
    NextSaid(Reached(init, sessionId), frames[n], sessionId);
    var delta := DeltaAt(frames, sessionId, n);
    var earlier, current := Earlier(init, sessionId), Current(init, sessionId);
    assert earlier + current + delta == earlier + (current + delta);
    OneSay(Reached(init, sessionId).outs, earlier, current + delta);
  }

  lemma OneSay(outs: seq<Out>, earlier: string, current: string)
    ensures outs + [Say(earlier + current)] == outs + [Say(current)] <==> earlier == ""
  {
    var a, b := outs + [Say(earlier + current)], outs + [Say(current)];
    assert earlier == "" ==> earlier + current == current;
    if a == b {
      assert a[|outs|] == b[|outs|];
      assert |earlier + current| == |current|;
    }
  }

  /** Frames i and m are a delta and a later end of a message. */
  ghost predicate SpokenThenEnded(frames: seq<Frame>, sessionId: string, i: nat, m: nat)
    requires i < m < |frames|
  {
    DeltaAt(frames, sessionId, i) != "" && EndsAt(frames, sessionId, m)
  }

  ghost predicate SpokenBefore(frames: seq<Frame>, sessionId: string, n: nat)
    requires n <= |frames|
  {
    exists i: nat :: i < n && DeltaAt(frames, sessionId, i) != ""
  }

  ghost predicate EndedBefore(frames: seq<Frame>, sessionId: string, n: nat)
    requires n <= |frames|
  {
    exists i: nat, m: nat :: i < m < n && SpokenThenEnded(frames, sessionId, i, m)
  }

  lemma {:induction false} AnySaid(frames: seq<Frame>, sessionId: string, n: nat)
    requires n <= |frames|
    ensures Reached(frames[..n], sessionId).said != "" <==> SpokenBefore(frames, sessionId, n)
  {
    if n > 0 {
      AnySaid(frames, sessionId, n - 1);
      assert frames[..n][..n - 1] == frames[..n - 1];
      NextSaid(Reached(frames[..n - 1], sessionId), frames[n - 1], sessionId);
      if SpokenBefore(frames, sessionId, n - 1) {
        var i: nat :| i < n - 1 && DeltaAt(frames, sessionId, i) != "";
      } else {
        assert SpokenBefore(frames, sessionId, n) <==> DeltaAt(frames, sessionId, n - 1) != "";
      }
    }
  }

  lemma EndedMore(frames: seq<Frame>, sessionId: string, n: nat)
    requires n < |frames|
    ensures EndedBefore(frames, sessionId, n + 1) <==>
      EndedBefore(frames, sessionId, n) || (EndsAt(frames, sessionId, n) && SpokenBefore(frames, sessionId, n))
  {
    if EndsAt(frames, sessionId, n) && SpokenBefore(frames, sessionId, n) {
      var i: nat :| i < n && DeltaAt(frames, sessionId, i) != "";
      assert SpokenThenEnded(frames, sessionId, i, n);
    }
    if EndedBefore(frames, sessionId, n) {
      var i: nat, m: nat :| i < m < n && SpokenThenEnded(frames, sessionId, i, m);
    }
  }

  lemma EndedSpoke(frames: seq<Frame>, sessionId: string, n: nat)
    requires n <= |frames| && EndedBefore(frames, sessionId, n)
    ensures SpokenBefore(frames, sessionId, n)
  {
    var i: nat, m: nat :| i < m < n && SpokenThenEnded(frames, sessionId, i, m);
  }

  /** Earlier messages had text exactly when some delta was followed by the end of a
      message. */
  lemma {:induction false} EarlierText(frames: seq<Frame>, sessionId: string, n: nat)
    requires n <= |frames|
    ensures Earlier(frames[..n], sessionId) != "" <==> EndedBefore(frames, sessionId, n)
  {
    if n > 0 {
      EarlierText(frames, sessionId, n - 1);
      assert frames[..n][..n - 1] == frames[..n - 1];
      EndedMore(frames, sessionId, n - 1);
      if EndsAt(frames, sessionId, n - 1) {
        SaidSplits(frames[..n - 1], sessionId);
        AnySaid(frames, sessionId, n - 1);
        if EndedBefore(frames, sessionId, n - 1) {
          EndedSpoke(frames, sessionId, n - 1);
        }
      }
    }
  }

  /** Every delta of a stream shows only its own message's text if and only if no delta
      follows the end of a message that follows a delta. */
  lemma DeltasShowOwnMessage(frames: seq<Frame>, sessionId: string)
    ensures
      (forall n: nat | n < |frames| && DeltaAt(frames, sessionId, n) != "" :: ShowsOwnMessage(frames, sessionId, n))
      <==>
      (forall i: nat, m: nat, n: nat | i < m < n < |frames| && SpokenThenEnded(frames, sessionId, i, m) ::
        DeltaAt(frames, sessionId, n) == "")
  {
    forall n: nat | n < |frames| && DeltaAt(frames, sessionId, n) != ""
      ensures ShowsOwnMessage(frames, sessionId, n) <==> !EndedBefore(frames, sessionId, n)
    {
      DeltaShows(frames, sessionId, n);
      EarlierText(frames, sessionId, n);
    }
  }

  function TextFrame(text: string): Frame {
    Frame(true, Some(Mux("s", SessionEvent, AssistantChunk(Some(Chunk(true, text))))))
  }

  function MessageFrame(text: string): Frame {
    Frame(true, Some(Mux("s", SessionEvent, AssistantMessage(Some(Message.Message([TextPart(true, text)], None))))))
  }

  /** The accumulated text is never reset: in a turn with two messages the deltas of
      the second repeat the first. */
  lemma SecondMessageRepeatsFirst(a: string, b: string)
    requires a != "" && b != ""
    ensures Reached([TextFrame(a), MessageFrame(a), TextFrame(b), MessageFrame(b)], "s").outs
         == [Say(a), Say(a), Say(a + b), Say(b)]
  {
    var f := [TextFrame(a), MessageFrame(a), TextFrame(b), MessageFrame(b)];
    assert f[..3][..2] == f[..2] && f[..2][..1] == f[..1] && f[..1][..0] == [] && f[..4] == f && f[..4][..3] == f[..3];
    GatherOne(TextOf, TextPart(true, a));
    GatherOne(TextOf, TextPart(true, b));
    assert "" + a == a;
    assert Reached(f[..1], "s") == DeepState(a, true, None, [Say(a)], Open);
    assert Reached(f[..2], "s") == DeepState(a, true, None, [Say(a), Say(a)], Open);
    assert Reached(f[..3], "s") == DeepState(a + b, true, None, [Say(a), Say(a), Say(a + b)], Open);
  }
}
