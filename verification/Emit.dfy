/** The streaming emitter: raw agent events to wire events, with the text-delta
    and thinking-stream trackers threaded from call to call. */
module Emit {
  import opened Folds
  import opened Text
  import opened Wire

  /** lastLen, live, emitted and seen are the emitter's four mutable trackers. */
  datatype State = State(lastLen: nat, live: set<int>, emitted: set<int>, seen: set<string>)

  const FRESH := State(0, {}, {}, {})

  /** `custom`: the agent's declared custom tools. `tools`: the built-in ones.
      `order`: the order in which the runtime walks a set, which Python leaves open. */
  datatype Config = Config(custom: Option<set<string>>, tools: ToolTable, order: set<int> -> seq<int>) {
    predicate Declared(name: string) { custom.Some? && name in custom.value }
  }

  ghost predicate Walks(order: set<int> -> seq<int>) {
    forall s :: NoDup(order(s)) && forall x :: x in order(s) <==> x in s
  }

  type Output = seq<WireEvent>

  // ---- thinking ----------------------------------------------------------

  function ThinkingId(index: ContentIndex): int {
    match index
    case At(i) => i
    case _ => 0
  }

  predicate IsThinkingPart(part: StreamPart) {
    part.ThinkingStart? || part.ThinkingDelta? || part.ThinkingEnd?
  }

  /** Live set and events after one thinking_* part. */
  function ThinkingPart(part: StreamPart, live: set<int>): (set<int>, Output)
    requires IsThinkingPart(part)
  {
    var id := ThinkingId(part.index);
    var begun := if id in live then [] else [ThinkingStreamStart(id)];
    match part
    case ThinkingStart(_) => (live + {id}, begun)
    case ThinkingDelta(_, delta) =>
      (live + {id}, begun + if delta == "" then [] else [ThinkingChunk(id, delta)])
    case ThinkingEnd(_) => (live - {id}, if id in live then [ThinkingStreamEnd(id)] else [])
  }

  function Options(b: Block): Option<ProviderOptions>
    requires b.ThinkingBlock?
  {
    if b.signature == "" && !b.redacted then None
    else if b.signature == "" then Some(ProviderOptions("", ""))
    else if b.redacted then Some(ProviderOptions("", b.signature))
    else Some(ProviderOptions(b.signature, ""))
  }

  /** None keeps every block; Some(i) keeps block i alone. */
  function OnlyIndex(only: ContentIndex): Option<int> {
    match only
    case Absent => None
    case Malformed => Some(0)
    case At(i) => Some(i)
  }

  predicate Kept(filter: Option<int>, index: int) {
    filter.None? || filter.value == index
  }

  /** The two thinking trackers and the events said so far. */
  datatype Thinker = Thinker(live: set<int>, emitted: set<int>, out: Output)

  /** One content block: close its stream if open, announce it if new. */
  function ThinkBlock(index: int, b: Block, filter: Option<int>, t: Thinker): Thinker {
    if !Kept(filter, index) || !b.ThinkingBlock? then t
    else
      Thinker(
        t.live - {index},
        t.emitted + {index},
        t.out + (if index in t.live then [ThinkingStreamEnd(index)] else [])
              + (if index in t.emitted then [] else [Thinking(index, b.thinking, Options(b))]))
  }

  /** The first n content blocks. */
  function ThinkBlocks(blocks: seq<Block>, n: nat, filter: Option<int>, t: Thinker): Thinker
    requires n <= |blocks|
  {
    if n == 0 then t else ThinkBlock(n - 1, blocks[n - 1], filter, ThinkBlocks(blocks, n - 1, filter, t))
  }

  function Ends(ids: seq<int>): Output {
    seq(|ids|, i requires 0 <= i < |ids| => ThinkingStreamEnd(ids[i]))
  }

  function ThinkMessage(cfg: Config, m: Message, only: ContentIndex, live: set<int>, emitted: set<int>): Thinker {
    var t := Thinker(live, emitted, []);
    if !m.content.Blocks? then t
    else
      var done := ThinkBlocks(m.content.blocks, |m.content.blocks|, OnlyIndex(only), t);
      if OnlyIndex(only).Some? then done
      else Thinker({}, done.emitted, done.out + Ends(cfg.order(done.live)))
  }

  // ---- tools -------------------------------------------------------------

  const CALL_AGENT := "call_agent_"

  predicate CallsAgent(name: string) { HasPrefix(name, CALL_AGENT) }

  function SentEventId(callId: string): string { "sevt-thread-sent-" + callId }

  /** The id a call is announced under. */
  function EmittedId(c: RawEvent): string
    requires c.ToolCall?
  {
    Or(c.id, Or(c.toolCallId, Or(c.toolUseId, c.uuid)))
  }

  /** The id a call is found again under: the same fields in another order. */
  function LookupId(c: RawEvent): string
    requires c.ToolCall?
  {
    Or(c.toolCallId, Or(c.toolUseId, c.id))
  }

  function ResultId(d: RawEvent): string
    requires d.ToolDone?
  {
    Or(d.toolCallId, Or(d.toolUseId, d.id))
  }

  function EmittedName(c: RawEvent): string
    requires c.ToolCall?
  {
    Or(c.toolName, if c.name.Some? then c.name.value else "tool")
  }

  function LookupName(c: RawEvent): string
    requires c.ToolCall?
  {
    Or(c.toolName, if c.name.Some? then c.name.value else "")
  }

  predicate Names(c: RawEvent, callId: string) {
    c.ToolCall? && LookupId(c) == callId && LookupName(c) != ""
  }

  /** Name of the latest call in `events` that carries this id. */
  function NameForCall(events: seq<RawEvent>, callId: string): Option<string> {
    if events == [] || callId == "" then None
    else
      var last := events[|events| - 1];
      if Names(last, callId) then Some(LookupName(last))
      else NameForCall(events[..|events| - 1], callId)
  }

  function Announce(cfg: Config, c: RawEvent): Output
    requires c.ToolCall?
  {
    var id, name := EmittedId(c), EmittedName(c);
    var use := if cfg.Declared(name) || !cfg.tools.Builtin(name)
               then CustomToolUse(id, name, c.input) else ToolUse(id, name, c.input);
    [use] + if CallsAgent(name)
            then [ThreadMessageSent(SentEventId(id), id, Or(c.input.message, c.input.task))] else []
  }

  function Report(cfg: Config, d: RawEvent, name: Option<string>): Output
    requires d.ToolDone?
  {
    if name.Some? && cfg.Declared(name.value) then []
    else
      var id := ResultId(d);
      [ToolResult(id, d.result)] +
      if name.Some? && CallsAgent(name.value)
      then [ThreadMessageReceived(id, d.result, SentEventId(id), name.value[|CALL_AGENT|..])] else []
  }

  // ---- one event ---------------------------------------------------------

  function Say(text: string): Output { if text == "" then [] else [AgentMessage(text)] }

  function AssistantTextOf(ev: RawEvent): string
    requires ev.AssistantText?
  {
    if ev.text.Some? then ev.text.value else RawText(ev.content)
  }

  function UsageEvents(m: Message): Output {
    if m.usage.Some? && !m.usage.value.AllZero() then [UsageSpan(m.usage.value)] else []
  }

  /** The part of a closing message's text still to be said. */
  function Rest(st: State, text: string): string {
    if text in st.seen || |text| <= st.lastLen then "" else text[st.lastLen..]
  }

  /** A message_end or turn_end that carries an assistant message. */
  function Close(cfg: Config, st: State, m: Message): (State, Output) {
    var t := ThinkMessage(cfg, m, Absent, st.live, st.emitted);
    var text := MessageText(m);
    var seen := if text == "" then st.seen else st.seen + {text};
    (State(0, {}, t.emitted, seen), t.out + Say(Rest(st, text)) + UsageEvents(m))
  }

  /** Effect of one raw event; `upTo` is the lookup list up to and including it. */
  function Step(cfg: Config, st: State, upTo: seq<RawEvent>, ev: RawEvent): (State, Output) {
    match ev
    case MessageUpdate(part, message) =>
      if IsThinkingPart(part) then
        var (live, out) := ThinkingPart(part, st.live);
        if part.ThinkingEnd? && message.Some? then
          var t := ThinkMessage(cfg, message.value, part.index, live, st.emitted);
          (st.(live := t.live, emitted := t.emitted), out + t.out)
        else (st.(live := live), out)
      else if message.Some? && |MessageText(message.value)| > st.lastLen then
        var text := MessageText(message.value);
        (st.(lastLen := |text|), [AgentMessage(text[st.lastLen..])])
      else (st, [])
    case AssistantText(_, _) =>
      var text := AssistantTextOf(ev);
      if text == "" || text in st.seen then (st, [])
      else (st.(seen := st.seen + {text}), [AgentMessage(text)])
    case MessageStart => (State(0, {}, {}, st.seen), [])
    case MessageEnd(message) =>
      if message.Some? && message.value.isAssistant then Close(cfg, st, message.value)
      else (st.(lastLen := 0, live := {}), [])
    case TurnEnd(message) =>
      if message.Some? && message.value.isAssistant then Close(cfg, st, message.value)
      else (st.(lastLen := 0, live := {}), [])
    case ToolCall(_, _, _, _, _, _, _) => (st, Announce(cfg, ev))
    case ToolDone(_, _, _, _) => (st, Report(cfg, ev, NameForCall(upTo, ResultId(ev))))
    case OtherRaw => (st, [])
  }

  /** State and output after `raw`, whose item i sits at `off + i` in `lookup`. */
  function Run(cfg: Config, st: State, lookup: seq<RawEvent>, off: nat, raw: seq<RawEvent>): (State, Output)
    requires off + |raw| <= |lookup|
  {
    Fold((s: State, upTo: seq<RawEvent>, ev: RawEvent) => Step(cfg, s, upTo, ev), st, lookup, off, raw)
  }

  /** A call with any lookup list, `raw` taken to lie from `off` on. */
  function LooseRun(cfg: Config, st: State, lookup: seq<RawEvent>, off: int, raw: seq<RawEvent>): (State, Output) {
    LooseFold((s: State, upTo: seq<RawEvent>, ev: RawEvent) => Step(cfg, s, upTo, ev), st, lookup, off, raw)
  }

  lemma LooseRunExtends(cfg: Config, st: State, lookup: seq<RawEvent>, off: int, raw: seq<RawEvent>, n: nat)
    requires n < |raw|
    ensures
      var (s, out) := LooseRun(cfg, st, lookup, off, raw[..n]);
      var (s', more) := Step(cfg, s, UpTo(lookup, off + n + 1), raw[n]);
      LooseRun(cfg, st, lookup, off, raw[..n + 1]) == (s', out + more)
  {
    LooseExtends((s: State, upTo: seq<RawEvent>, ev: RawEvent) => Step(cfg, s, upTo, ev), st, lookup, off, raw, n);
  }

  /** With a lookup list at least as long as `raw`, as every caller passes, it is a run
      inside that list. */
  lemma LooseRunIsRun(cfg: Config, st: State, lookup: seq<RawEvent>, off: nat, raw: seq<RawEvent>)
    requires off + |raw| <= |lookup|
    ensures LooseRun(cfg, st, lookup, off, raw) == Run(cfg, st, lookup, off, raw)
  {
    LooseIsFold((s: State, upTo: seq<RawEvent>, ev: RawEvent) => Step(cfg, s, upTo, ev), st, lookup, off, raw);
  }

  /** One call over a whole list that is its own lookup list. */
  function Batch(cfg: Config, st: State, raw: seq<RawEvent>): (State, Output) {
    Run(cfg, st, raw, 0, raw)
  }

  /** State and output of `raw` run after a past it can look calls up in. */
  function After(cfg: Config, st: State, past: seq<RawEvent>, raw: seq<RawEvent>): (State, Output) {
    FoldAfter((s: State, upTo: seq<RawEvent>, ev: RawEvent) => Step(cfg, s, upTo, ev), st, past, raw)
  }

  lemma AfterNothing(cfg: Config, st: State, past: seq<RawEvent>)
    ensures After(cfg, st, past, []) == (st, [])
  {
    FoldAfterNothing((s: State, upTo: seq<RawEvent>, e: RawEvent) => Step(cfg, s, upTo, e), st, past);
  }

  lemma AfterExtends(cfg: Config, st: State, past: seq<RawEvent>, raw: seq<RawEvent>, ev: RawEvent)
    ensures
      var (s, out) := After(cfg, st, past, raw);
      var (s', more) := Step(cfg, s, past + raw + [ev], ev);
      After(cfg, st, past, raw + [ev]) == (s', out + more)
  {
    FoldAfterExtends((s: State, upTo: seq<RawEvent>, e: RawEvent) => Step(cfg, s, upTo, e), st, past, raw, ev);
  }

  lemma AfterSplits(cfg: Config, st: State, past: seq<RawEvent>, a: seq<RawEvent>, b: seq<RawEvent>)
    ensures
      var (s, out) := After(cfg, st, past, a);
      var (s', more) := After(cfg, s, past + a, b);
      After(cfg, st, past, a + b) == (s', out + more)
  {
    FoldAfterSplits((s: State, upTo: seq<RawEvent>, e: RawEvent) => Step(cfg, s, upTo, e), st, past, a, b);
  }

  /** message_start forgets all but the texts already said. */
  lemma AfterOpening(cfg: Config, st: State, past: seq<RawEvent>, rest: seq<RawEvent>)
    ensures After(cfg, st, past, [MessageStart] + rest)
         == After(cfg, State(0, {}, {}, st.seen), past + [MessageStart], rest)
  {
    FoldAfterSilent((s: State, upTo: seq<RawEvent>, e: RawEvent) => Step(cfg, s, upTo, e),
                    st, past, MessageStart, rest, State(0, {}, {}, st.seen));
  }

  // ---- the emitter itself ------------------------------------------------

  class Emitter {
    const cfg: Config
    var lastEmittedLen: nat
    var liveThinking: set<int>
    var emittedThinkingIds: set<int>
    var seenAgentText: set<string>

    ghost function Value(): State
      reads this
    {
      State(lastEmittedLen, liveThinking, emittedThinkingIds, seenAgentText)
    }

    constructor (cfg: Config)
      ensures this.cfg == cfg && Value() == FRESH
    {
      this.cfg := cfg;
      lastEmittedLen, liveThinking, emittedThinkingIds, seenAgentText := 0, {}, {}, {};
    }

    /** Parts of other types say nothing. */
    method EmitThinkingStream(part: StreamPart) returns (out: Output)
      modifies this`liveThinking
      ensures
        var (live, events) :=
          if IsThinkingPart(part) then ThinkingPart(part, old(liveThinking)) else (old(liveThinking), []);
        liveThinking == live && out == events
    {
      out := [];
      match part {
        case ThinkingStart(index) =>
          var id := ThinkingId(index);
          assert id in liveThinking ==> liveThinking + {id} == liveThinking;
          if id !in liveThinking {
            liveThinking := liveThinking + {id};
            out := out + [ThinkingStreamStart(id)];
          }
        case ThinkingDelta(index, delta) =>
          var id := ThinkingId(index);
          assert id in liveThinking ==> liveThinking + {id} == liveThinking;
          if id !in liveThinking {
            liveThinking := liveThinking + {id};
            out := out + [ThinkingStreamStart(id)];
          }
          if delta != "" {
            out := out + [ThinkingChunk(id, delta)];
          }
        case ThinkingEnd(index) =>
          var id := ThinkingId(index);
          assert id !in liveThinking ==> liveThinking - {id} == liveThinking;
          if id in liveThinking {
            liveThinking := liveThinking - {id};
            out := out + [ThinkingStreamEnd(id)];
          }
        case _ =>
      }
    }

    method EmitThinkingFromMessage(m: Message, only: ContentIndex) returns (out: Output)
      modifies this`liveThinking, this`emittedThinkingIds
      ensures
        Thinker(liveThinking, emittedThinkingIds, out)
          == ThinkMessage(cfg, m, only, old(liveThinking), old(emittedThinkingIds))
    {
      if !m.content.Blocks? {
        return [];
      }
      var blocks := m.content.blocks;
      var filter := OnlyIndex(only);
      out := [];
      for index := 0 to |blocks|
        invariant
          Thinker(liveThinking, emittedThinkingIds, out)
            == ThinkBlocks(blocks, index, filter, Thinker(old(liveThinking), old(emittedThinkingIds), []))
      {
        if filter.Some? && index != filter.value {
          continue;
        }
        if !blocks[index].ThinkingBlock? {
          continue;
        }
        assert index !in liveThinking ==> liveThinking - {index} == liveThinking;
        assert index in emittedThinkingIds ==> emittedThinkingIds + {index} == emittedThinkingIds;
        if index in liveThinking {
          liveThinking := liveThinking - {index};
          out := out + [ThinkingStreamEnd(index)];
        }
        if index in emittedThinkingIds {
          continue;
        }
        out := out + [Thinking(index, blocks[index].thinking, Options(blocks[index]))];
        emittedThinkingIds := emittedThinkingIds + {index};
      }
      if filter.Some? {
        return;
      }
      // Close live streams that never appeared as content blocks.
      var orphans := cfg.order(liveThinking);
      ghost var said := out;
      for i := 0 to |orphans|
        invariant out == said + Ends(orphans)[..i]
      {
        out := out + [ThinkingStreamEnd(orphans[i])];
      }
      liveThinking := {};
    }

    method EmitClose(m: Message) returns (out: Output)
      modifies this
      ensures var (st, events) := Close(cfg, old(Value()), m); Value() == st && out == events
    {
      out := EmitThinkingFromMessage(m, Absent);
      var text := MessageText(m);
      if text != "" && text in seenAgentText {
        // already said in full
      } else if text != "" && |text| > lastEmittedLen {
        out := out + [AgentMessage(text[lastEmittedLen..])];
        lastEmittedLen := |text|;
      }
      if text != "" {
        seenAgentText := seenAgentText + {text};
      }
      if m.usage.Some? && !m.usage.value.AllZero() {
        out := out + [UsageSpan(m.usage.value)];
      }
      lastEmittedLen := 0;
      liveThinking := {};
    }

    static method ToolNameForCall(events: seq<RawEvent>, callId: string) returns (name: Option<string>)
      ensures name == NameForCall(events, callId)
    {
      if callId == "" {
        return None;
      }
      var i := |events|;
      assert events[..i] == events;
      while i > 0
        invariant 0 <= i <= |events|
        invariant NameForCall(events[..i], callId) == NameForCall(events, callId)
      {
        i := i - 1;
        assert events[..i + 1][..i] == events[..i];
        if events[i].ToolCall? && LookupId(events[i]) == callId && LookupName(events[i]) != "" {
          return Some(LookupName(events[i]));
        }
      }
      return None;
    }

    /** emit_oma_events; `buffer` is the optional lookup list. */
    method Emit(raw: seq<RawEvent>, buffer: Option<seq<RawEvent>>) returns (out: Output)
      modifies this
      ensures
        var lookup := if buffer.Some? then buffer.value else raw;
        var (st, events) := LooseRun(cfg, old(Value()), lookup, |lookup| - |raw|, raw);
        Value() == st && out == events
    {
      var lookup := if buffer.Some? then buffer.value else raw;
      var off := |lookup| - |raw|;
      out := [];
      for idx := 0 to |raw|
        invariant
          var (st, events) := LooseRun(cfg, old(Value()), lookup, off, raw[..idx]);
          Value() == st && out == events
      {
        LooseRunExtends(cfg, old(Value()), lookup, off, raw, idx);
        var more := EmitOne(UpTo(lookup, off + idx + 1), raw[idx]);
        out := out + more;
      }
      assert raw[..|raw|] == raw;
    }

    /** Body of the emitter's loop. */
    method EmitOne(upTo: seq<RawEvent>, ev: RawEvent) returns (out: Output)
      modifies this
      ensures var (st, events) := Step(cfg, old(Value()), upTo, ev); Value() == st && out == events
    {
      out := [];
      match ev {
        case MessageUpdate(part, message) =>
          if IsThinkingPart(part) {
            out := EmitThinkingStream(part);
            if part.ThinkingEnd? && message.Some? {
              var more := EmitThinkingFromMessage(message.value, part.index);
              out := out + more;
            }
          } else if message.Some? {
            var text := MessageText(message.value);
            if |text| > lastEmittedLen {
              out := [AgentMessage(text[lastEmittedLen..])];
              lastEmittedLen := |text|;
            }
          }
        case AssistantText(_, _) =>
          var text := AssistantTextOf(ev);
          if text != "" && text !in seenAgentText {
            seenAgentText := seenAgentText + {text};
            out := [AgentMessage(text)];
          }
        case MessageStart =>
          lastEmittedLen, liveThinking, emittedThinkingIds := 0, {}, {};
        case MessageEnd(message) =>
          if message.Some? && message.value.isAssistant {
            out := EmitClose(message.value);
          } else {
            lastEmittedLen, liveThinking := 0, {};
          }
        case TurnEnd(message) =>
          if message.Some? && message.value.isAssistant {
            out := EmitClose(message.value);
          } else {
            lastEmittedLen, liveThinking := 0, {};
          }
        case ToolCall(_, _, _, _, _, _, _) =>
          var id, name := EmittedId(ev), EmittedName(ev);
          if cfg.Declared(name) || !cfg.tools.Builtin(name) {
            out := [CustomToolUse(id, name, ev.input)];
          } else {
            out := [ToolUse(id, name, ev.input)];
          }
          if CallsAgent(name) {
            out := out + [ThreadMessageSent(SentEventId(id), id, Or(ev.input.message, ev.input.task))];
          }
        case ToolDone(_, _, _, _) =>
          var id := ResultId(ev);
          var name := ToolNameForCall(upTo, id);
          if name.Some? && cfg.Declared(name.value) {
            return [];
          }
          out := [ToolResult(id, ev.result)];
          if name.Some? && CallsAgent(name.value) {
            out := out + [ThreadMessageReceived(id, ev.result, SentEventId(id), name.value[|CALL_AGENT|..])];
          }
        case OtherRaw =>
      }
    }
  }
}
