/** What a run of the emitter puts on the wire, kind by kind, told from the fields of the
    raw events alone. */
module WireLaws {
  import opened Folds
  import opened Text
  import opened Wire
  import opened Emit

  // ---- the fields of a tool event ----------------------------------------------

  /** The first field that is not empty. */
  function FirstOf(fields: seq<string>): string {
    if fields == [] then "" else if fields[0] != "" then fields[0] else FirstOf(fields[1..])
  }

  lemma FirstOfThree(a: string, b: string, c: string)
    ensures FirstOf([a, b, c]) == Or(a, Or(b, c))
  {
    assert [a, b, c][1..] == [b, c] && [b, c][1..] == [c] && [c][1..] == [];
    assert FirstOf([c]) == c && FirstOf([b, c]) == Or(b, c);
  }

  lemma FirstOfFour(a: string, b: string, c: string, d: string)
    ensures FirstOf([a, b, c, d]) == Or(a, Or(b, Or(c, d)))
  {
    FirstOfThree(b, c, d);
    assert [a, b, c, d][1..] == [b, c, d];
  }

  function CallId(c: RawEvent): string
    requires c.ToolCall?
  {
    FirstOf([c.id, c.toolCallId, c.toolUseId, c.uuid])
  }

  function CallName(c: RawEvent): string
    requires c.ToolCall?
  {
    if c.toolName != "" then c.toolName else match c.name case None => "tool" case Some(name) => name
  }

  function DoneId(d: RawEvent): string
    requires d.ToolDone?
  {
    FirstOf([d.toolCallId, d.toolUseId, d.id])
  }

  /** The name under which a call is found again, "" for none. */
  function FindName(c: RawEvent): string
    requires c.ToolCall?
  {
    FirstOf([c.toolName, match c.name case None => "" case Some(name) => name])
  }

  predicate Finds(ev: RawEvent, id: string) {
    ev.ToolCall? && id != "" && FirstOf([ev.toolCallId, ev.toolUseId, ev.id]) == id && FindName(ev) != ""
  }

  /** The k-th event is the latest call found under the id. */
  predicate LatestFound(events: seq<RawEvent>, id: string, k: nat) {
    k < |events| && Finds(events[k], id) && forall m | k < m < |events| :: !Finds(events[m], id)
  }

  ghost function FoundName(events: seq<RawEvent>, id: string): Option<string> {
    if k: nat :| LatestFound(events, id, k) then Some(FindName(events[k])) else None
  }

  lemma FoundStep(init: seq<RawEvent>, last: RawEvent, id: string)
    ensures FoundName(init + [last], id) == if Finds(last, id) then Some(FindName(last)) else FoundName(init, id)
  {
    var events := init + [last];
    if Finds(last, id) {
      assert LatestFound(events, id, |init|);
      forall k: nat | LatestFound(events, id, k) ensures k == |init| {
        assert events[|init|] == last;
      }
    } else {
      forall k: nat ensures LatestFound(events, id, k) <==> LatestFound(init, id, k) {
        if LatestFound(init, id, k) {
          assert forall m | k < m < |events| :: events[m] == if m < |init| then init[m] else last;
        }
        if LatestFound(events, id, k) {
          assert k < |init|;
          assert forall m | k < m < |init| :: init[m] == events[m];
        }
      }
      assert forall k: nat, m: nat | LatestFound(init, id, k) && LatestFound(init, id, m) :: k == m;
    }
  }

  lemma {:induction false} FoundIsName(events: seq<RawEvent>, id: string)
    ensures NameForCall(events, id) == FoundName(events, id)
  {
    if events != [] && id != "" {
      var init, last := events[..|events| - 1], events[|events| - 1];
      assert events == init + [last];
      FoundIsName(init, id);
      FoundStep(init, last, id);
      if last.ToolCall? {
        FirstOfThree(last.toolCallId, last.toolUseId, last.id);
        FirstOfTwo(last.toolName, match last.name case None => "" case Some(name) => name);
      }
    }
  }

  lemma FirstOfTwo(a: string, b: string)
    ensures FirstOf([a, b]) == Or(a, b)
  {
    assert [a, b][1..] == [b] && FirstOf([b]) == b;
  }

  // ---- one kind of event over a run --------------------------------------------

  type Telling<!X> = (seq<RawEvent>, RawEvent) -> seq<X>

  /** What each event of a run tells, given the events up to it. */
  function Told<X>(tell: Telling<X>, past: seq<RawEvent>, raw: seq<RawEvent>): seq<X> {
    if raw == [] then []
    else Told(tell, past, raw[..|raw| - 1]) + tell(past + raw, raw[|raw| - 1])
  }

  ghost predicate TellsAt<X>(cfg: Config, view: WireEvent -> seq<X>, tell: Telling<X>,
        st: State, upTo: seq<RawEvent>, ev: RawEvent)
  {
    Gather(view, Step(cfg, st, upTo, ev).1) == tell(upTo, ev)
  }

  lemma {:induction false} RunTells<X>(cfg: Config, view: WireEvent -> seq<X>, tell: Telling<X>, st: State,
        past: seq<RawEvent>, raw: seq<RawEvent>)
    requires forall s, upTo, ev :: TellsAt(cfg, view, tell, s, upTo, ev)
    ensures Gather(view, After(cfg, st, past, raw).1) == Told(tell, past, raw)
  {
    if raw == [] {
      AfterNothing(cfg, st, past);
    } else {
      var init, ev := raw[..|raw| - 1], raw[|raw| - 1];
      assert raw == init + [ev] && past + init + [ev] == past + raw;
      RunTells(cfg, view, tell, st, past, init);
      AfterExtends(cfg, st, past, init, ev);
      var (s, out) := After(cfg, st, past, init);
      assert TellsAt(cfg, view, tell, s, past + raw, ev);
      GatherAppend(view, out, Step(cfg, s, past + raw, ev).1);
    }
  }

  lemma {:induction false} Unseen<X>(view: WireEvent -> seq<X>, out: Output)
    requires forall e | e in out :: view(e) == []
    ensures Gather(view, out) == []
  {
    if out != [] {
      Unseen(view, out[..|out| - 1]);
      assert out[|out| - 1] in out;
    }
  }

  predicate OfThinking(e: WireEvent) {
    e.ThinkingStreamStart? || e.ThinkingChunk? || e.ThinkingStreamEnd? || e.Thinking?
  }

  predicate OfBlocks(e: WireEvent) { e.Thinking? || e.ThinkingStreamEnd? }

  /** Events about messages, as opposed to tools. */
  predicate OfMessages(e: WireEvent) { OfThinking(e) || e.AgentMessage? || e.UsageSpan? }

  predicate OfTools(e: WireEvent) {
    e.ToolUse? || e.CustomToolUse? || e.ToolResult? || e.ThreadMessageSent? || e.ThreadMessageReceived?
  }

  ghost predicate Only(p: WireEvent -> bool, out: Output) { forall e | e in out :: p(e) }

  lemma {:induction false} BlocksThink(blocks: seq<Block>, n: nat, filter: Option<int>, t: Thinker)
    requires n <= |blocks| && Only(OfBlocks, t.out)
    ensures Only(OfBlocks, ThinkBlocks(blocks, n, filter, t).out)
  {
    if n > 0 {
      BlocksThink(blocks, n - 1, filter, t);
    }
  }

  lemma MessageThinks(cfg: Config, m: Message, only: ContentIndex, live: set<int>, emitted: set<int>)
    ensures Only(OfBlocks, ThinkMessage(cfg, m, only, live, emitted).out)
  {
    if m.content.Blocks? {
      BlocksThink(m.content.blocks, |m.content.blocks|, OnlyIndex(only), Thinker(live, emitted, []));
    }
  }

  /** Tool events come from tool calls and results only, and those bring no others. */
  lemma StepKinds(cfg: Config, st: State, upTo: seq<RawEvent>, ev: RawEvent)
    ensures Only(if ev.ToolCall? || ev.ToolDone? then OfTools else OfMessages, Step(cfg, st, upTo, ev).1)
  {
    match ev
    case MessageUpdate(part, message) =>
      if IsThinkingPart(part) && part.ThinkingEnd? && message.Some? {
        MessageThinks(cfg, message.value, part.index, ThinkingPart(part, st.live).0, st.emitted);
      }
    case MessageEnd(m) =>
      if m.Some? && m.value.isAssistant {
        MessageThinks(cfg, m.value, Absent, st.live, st.emitted);
      }
    case TurnEnd(m) =>
      if m.Some? && m.value.isAssistant {
        MessageThinks(cfg, m.value, Absent, st.live, st.emitted);
      }
    case _ =>
  }

  // ---- tool calls ----------------------------------------------------------------

  datatype Use = Use(custom: bool, id: string, name: string, input: ToolInput)

  function UseIn(e: WireEvent): seq<Use> {
    match e
    case ToolUse(id, name, input) => [Use(false, id, name, input)]
    case CustomToolUse(id, name, input) => [Use(true, id, name, input)]
    case _ => []
  }

  /** Declared by the agent, or no built-in tool. */
  predicate IsCustom(cfg: Config, name: string) {
    || (cfg.custom.Some? && name in cfg.custom.value)
    || name == "" || (name !in cfg.tools.names && forall p | p in cfg.tools.prefixes :: !(p <= name))
  }

  function UseBy(cfg: Config): Telling<Use> {
    (upTo, ev: RawEvent) =>
      if ev.ToolCall? then [Use(IsCustom(cfg, CallName(ev)), CallId(ev), CallName(ev), ev.input)] else []
  }

  datatype Handoff = Handoff(eventId: string, thread: string, text: string)

  function HandoffIn(e: WireEvent): seq<Handoff> {
    match e
    case ThreadMessageSent(eventId, thread, text) => [Handoff(eventId, thread, text)]
    case _ => []
  }

  /** Calls of an agent also show as a message sent to its thread. */
  function HandoffBy(): Telling<Handoff> {
    (upTo, ev: RawEvent) =>
      if ev.ToolCall? && "call_agent_" <= CallName(ev) then
        [Handoff("sevt-thread-sent-" + CallId(ev), CallId(ev),
                 if ev.input.message != "" then ev.input.message else ev.input.task)]
      else []
  }

  lemma CallFields(c: RawEvent)
    requires c.ToolCall?
    ensures EmittedId(c) == CallId(c) && EmittedName(c) == CallName(c)
  {
    FirstOfFour(c.id, c.toolCallId, c.toolUseId, c.uuid);
  }

  lemma CallTells(cfg: Config, c: RawEvent)
    requires c.ToolCall?
    ensures Gather(UseIn, Announce(cfg, c)) == UseBy(cfg)([], c)
    ensures Gather(HandoffIn, Announce(cfg, c)) == HandoffBy()([], c)
  {
    CallFields(c);
    var out := Announce(cfg, c);
    var use := out[0];
    GatherOne(UseIn, use);
    GatherOne(HandoffIn, use);
    if |out| == 2 {
      assert out == [use] + [out[1]];
      GatherExtends(UseIn, [use], out[1]);
      GatherExtends(HandoffIn, [use], out[1]);
    } else {
      assert out == [use];
    }
  }

  /** The announced calls of a run are its tool calls, in order, each with its id, its
      name and its input, custom exactly if declared or not built in. */
  lemma RunUses(cfg: Config, st: State, past: seq<RawEvent>, raw: seq<RawEvent>)
    ensures Gather(UseIn, After(cfg, st, past, raw).1) == Told(UseBy(cfg), past, raw)
  {
    forall s, upTo, ev ensures TellsAt(cfg, UseIn, UseBy(cfg), s, upTo, ev) {
      StepKinds(cfg, s, upTo, ev);
      if ev.ToolCall? {
        CallTells(cfg, ev);
      } else {
        NoCallTells(cfg, s, upTo, ev);
      }
    }
    RunTells(cfg, UseIn, UseBy(cfg), st, past, raw);
  }

  lemma NoCallTells(cfg: Config, st: State, upTo: seq<RawEvent>, ev: RawEvent)
    requires !ev.ToolCall?
    ensures Gather(UseIn, Step(cfg, st, upTo, ev).1) == [] && Gather(HandoffIn, Step(cfg, st, upTo, ev).1) == []
  {
    StepKinds(cfg, st, upTo, ev);
    Unseen(UseIn, Step(cfg, st, upTo, ev).1);
    Unseen(HandoffIn, Step(cfg, st, upTo, ev).1);
  }

  /** The messages sent to threads are those of the agent calls, in order. */
  lemma RunHandoffs(cfg: Config, st: State, past: seq<RawEvent>, raw: seq<RawEvent>)
    ensures Gather(HandoffIn, After(cfg, st, past, raw).1) == Told(HandoffBy(), past, raw)
  {
    forall s, upTo, ev ensures TellsAt(cfg, HandoffIn, HandoffBy(), s, upTo, ev) {
      if ev.ToolCall? {
        CallTells(cfg, ev);
      } else {
        NoCallTells(cfg, s, upTo, ev);
      }
    }
    RunTells(cfg, HandoffIn, HandoffBy(), st, past, raw);
  }

  // ---- tool results ----------------------------------------------------------------

  datatype Answer = Answer(id: string, text: string)

  function AnswerIn(e: WireEvent): seq<Answer> {
    match e
    case ToolResult(id, text) => [Answer(id, text)]
    case _ => []
  }

  datatype Return = Return(thread: string, text: string, sentId: string, agent: string)

  function ReturnIn(e: WireEvent): seq<Return> {
    match e
    case ThreadMessageReceived(thread, text, sentId, agent) => [Return(thread, text, sentId, agent)]
    case _ => []
  }

  /** The name the result finds is declared custom: it is the client's to answer. */
  ghost predicate StaysOff(cfg: Config, upTo: seq<RawEvent>, d: RawEvent)
    requires d.ToolDone?
  {
    var name := FoundName(upTo, DoneId(d));
    name.Some? && cfg.custom.Some? && name.value in cfg.custom.value
  }

  ghost function AnswerBy(cfg: Config): Telling<Answer> {
    (upTo, ev: RawEvent) =>
      if ev.ToolDone? && !StaysOff(cfg, upTo, ev) then [Answer(DoneId(ev), ev.result)] else []
  }

  /** Results of agent calls also show as a message received from its thread. */
  ghost function ReturnBy(cfg: Config): Telling<Return> {
    (upTo, ev: RawEvent) =>
      if !ev.ToolDone? || StaysOff(cfg, upTo, ev) then []
      else
        var id, name := DoneId(ev), FoundName(upTo, DoneId(ev));
        if name.Some? && "call_agent_" <= name.value then
          [Return(id, ev.result, "sevt-thread-sent-" + id, name.value[|"call_agent_"|..])]
        else []
  }

  lemma DoneTells(cfg: Config, upTo: seq<RawEvent>, d: RawEvent)
    requires d.ToolDone?
    ensures
      var out := Report(cfg, d, NameForCall(upTo, ResultId(d)));
      && Gather(AnswerIn, out) == AnswerBy(cfg)(upTo, d) && Gather(ReturnIn, out) == ReturnBy(cfg)(upTo, d)
  {
    FirstOfThree(d.toolCallId, d.toolUseId, d.id);
    FoundIsName(upTo, DoneId(d));
    var out := Report(cfg, d, NameForCall(upTo, ResultId(d)));
    if out != [] {
      GatherOne(AnswerIn, out[0]);
      GatherOne(ReturnIn, out[0]);
      if |out| == 2 {
        assert out == [out[0]] + [out[1]];
        GatherExtends(AnswerIn, [out[0]], out[1]);
        GatherExtends(ReturnIn, [out[0]], out[1]);
      } else {
        assert out == [out[0]];
      }
    }
  }

  lemma NoDoneTells(cfg: Config, st: State, upTo: seq<RawEvent>, ev: RawEvent)
    requires !ev.ToolDone?
    ensures Gather(AnswerIn, Step(cfg, st, upTo, ev).1) == [] && Gather(ReturnIn, Step(cfg, st, upTo, ev).1) == []
  {
    StepKinds(cfg, st, upTo, ev);
    Unseen(AnswerIn, Step(cfg, st, upTo, ev).1);
    Unseen(ReturnIn, Step(cfg, st, upTo, ev).1);
  }

  /** The tool results of a run are its results but those that find a declared tool, in
      order, each with its id and its text. */
  lemma RunAnswers(cfg: Config, st: State, past: seq<RawEvent>, raw: seq<RawEvent>)
    ensures Gather(AnswerIn, After(cfg, st, past, raw).1) == Told(AnswerBy(cfg), past, raw)
  {
    forall s, upTo, ev ensures TellsAt(cfg, AnswerIn, AnswerBy(cfg), s, upTo, ev) {
      if ev.ToolDone? {
        DoneTells(cfg, upTo, ev);
      } else {
        NoDoneTells(cfg, s, upTo, ev);
      }
    }
    RunTells(cfg, AnswerIn, AnswerBy(cfg), st, past, raw);
  }

  /** The messages received from threads are the results of agent calls, in order. */
  lemma RunReturns(cfg: Config, st: State, past: seq<RawEvent>, raw: seq<RawEvent>)
    ensures Gather(ReturnIn, After(cfg, st, past, raw).1) == Told(ReturnBy(cfg), past, raw)
  {
    forall s, upTo, ev ensures TellsAt(cfg, ReturnIn, ReturnBy(cfg), s, upTo, ev) {
      if ev.ToolDone? {
        DoneTells(cfg, upTo, ev);
      } else {
        NoDoneTells(cfg, s, upTo, ev);
      }
    }
    RunTells(cfg, ReturnIn, ReturnBy(cfg), st, past, raw);
  }
}
