/** What texts a run of the emitter knows, and in which order one event speaks. */
module TextLaws {
  import opened Folds
  import opened Text
  import opened Wire
  import opened Emit
  import opened WireLaws

  // ---- texts ---------------------------------------------------------------------------

  /** The text of a content: its own, or its text blocks one after the other. */
  lemma ContentText(text: string, blocks: seq<Block>, b: Block)
    ensures RawText(Plain(text)) == text && RawText(NoContent) == "" && RawText(Blocks([])) == ""
    ensures RawText(Blocks(blocks + [b])) ==
      match b
      case TextBlock(own) => RawText(Blocks(blocks)) + own
      case ThinkingBlock(_, _, _) => RawText(Blocks(blocks))
      case OtherBlock => RawText(Blocks(blocks))
  {
    GatherExtends(BlockText, blocks, b);
    assert RawText(Blocks(blocks)) + "" == RawText(Blocks(blocks));
  }

  /** The whole text an event makes known: an assistant's text, or the stripped text of an
      assistant's message that ends. */
  function WholeText(ev: RawEvent): string {
    match ev
    case AssistantText(Some(text), _) => text
    case AssistantText(None, content) => RawText(content)
    case MessageEnd(Some(Message(true, content, _))) => PyStrip(RawText(content))
    case TurnEnd(Some(Message(true, content, _))) => PyStrip(RawText(content))
    case _ => ""
  }

  lemma StepKnows(cfg: Config, st: State, upTo: seq<RawEvent>, ev: RawEvent)
    ensures Step(cfg, st, upTo, ev).0.seen == st.seen + if WholeText(ev) == "" then {} else {WholeText(ev)}
  {
  }

  /** A text counts as said exactly if it was before the run, or some event of the run
      made it known whole. */
  lemma {:induction false} RunSeen(cfg: Config, st: State, past: seq<RawEvent>, raw: seq<RawEvent>, text: string)
    ensures text in After(cfg, st, past, raw).0.seen <==>
      text in st.seen || (text != "" && exists i :: 0 <= i < |raw| && WholeText(raw[i]) == text)
  {
    if raw == [] {
      AfterNothing(cfg, st, past);
    } else {
      var init, ev := raw[..|raw| - 1], raw[|raw| - 1];
      assert raw == init + [ev] && forall i | 0 <= i < |init| :: raw[i] == init[i];
      RunSeen(cfg, st, past, init, text);
      AfterExtends(cfg, st, past, init, ev);
      StepKnows(cfg, After(cfg, st, past, init).0, past + init + [ev], ev);
    }
  }

  /** An assistant's text is said as a whole, unless it is empty or was said before. */
  lemma AssistantTextSaid(cfg: Config, st: State, past: seq<RawEvent>, raw: seq<RawEvent>, ev: RawEvent)
    requires ev.AssistantText?
    ensures
      var (s, out) := After(cfg, st, past, raw);
      var text := WholeText(ev);
      After(cfg, st, past, raw + [ev]).1
      == if text == "" || text in s.seen then out else out + [AgentMessage(text)]
  {
    AfterExtends(cfg, st, past, raw, ev);
    var out := After(cfg, st, past, raw).1;
    assert out + [] == out;
  }

  // ---- the order within what one event brings ----------------------------------------------

  /** Thinking comes before text and text before the usage; a call or a result before the
      thread message it stands for. */
  function Rank(e: WireEvent): nat {
    match e
    case ThinkingStreamStart(_) => 0
    case ThinkingChunk(_, _) => 0
    case ThinkingStreamEnd(_) => 0
    case Thinking(_, _, _) => 0
    case ToolUse(_, _, _) => 0
    case CustomToolUse(_, _, _) => 0
    case ToolResult(_, _) => 0
    case AgentMessage(_) => 1
    case ThreadMessageSent(_, _, _) => 1
    case ThreadMessageReceived(_, _, _, _) => 1
    case UsageSpan(_) => 2
    case UserMessage(_) => 3
    case OtherEvent(_) => 3
  }

  ghost predicate Ordered(out: Output) { forall i, j | 0 <= i < j < |out| :: Rank(out[i]) <= Rank(out[j]) }

  lemma BlocksRank(out: Output)
    requires Only(OfBlocks, out)
    ensures forall i | 0 <= i < |out| :: Rank(out[i]) == 0
  {
    forall i | 0 <= i < |out| ensures Rank(out[i]) == 0 {
      assert out[i] in out;
    }
  }

  lemma CloseOrdered(cfg: Config, st: State, m: Message)
    ensures Ordered(Close(cfg, st, m).1)
  {
    MessageThinks(cfg, m, Absent, st.live, st.emitted);
    BlocksRank(ThinkMessage(cfg, m, Absent, st.live, st.emitted).out);
  }

  lemma UpdateOrdered(cfg: Config, st: State, upTo: seq<RawEvent>, ev: RawEvent)
    requires ev.MessageUpdate? && IsThinkingPart(ev.part)
    ensures Ordered(Step(cfg, st, upTo, ev).1)
  {
    var (live, out) := ThinkingPart(ev.part, st.live);
    if ev.part.ThinkingEnd? && ev.message.Some? {
      MessageThinks(cfg, ev.message.value, ev.part.index, live, st.emitted);
      BlocksRank(ThinkMessage(cfg, ev.message.value, ev.part.index, live, st.emitted).out);
    }
  }

  /** Each event adds to the output, in that order. */
  lemma StepOrdered(cfg: Config, st: State, past: seq<RawEvent>, raw: seq<RawEvent>, ev: RawEvent)
    ensures
      var before, after := After(cfg, st, past, raw).1, After(cfg, st, past, raw + [ev]).1;
      before <= after && Ordered(after[|before|..])
  {
    AfterExtends(cfg, st, past, raw, ev);
    var (s, out) := After(cfg, st, past, raw);
    var upTo := past + raw + [ev];
    assert (out + Step(cfg, s, upTo, ev).1)[|out|..] == Step(cfg, s, upTo, ev).1;
    match ev
    case MessageUpdate(part, _) =>
      if IsThinkingPart(part) {
        UpdateOrdered(cfg, s, upTo, ev);
      }
    case MessageEnd(m) =>
      if m.Some? && m.value.isAssistant {
        CloseOrdered(cfg, s, m.value);
      }
    case TurnEnd(m) =>
      if m.Some? && m.value.isAssistant {
        CloseOrdered(cfg, s, m.value);
      }
    case _ =>
  }
}
