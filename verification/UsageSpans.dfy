/** The usage spans of a run of the emitter. */
module UsageSpans {
  import opened Folds
  import opened Text
  import opened Wire
  import opened Emit

  function SpanOf(e: WireEvent): seq<Usage> { if e.UsageSpan? then [e.usage] else [] }

  function Spans(out: Output): seq<Usage> { Gather(SpanOf, out) }

  /** The message of an assistant's message_end or turn_end carries a usage that is not
      all zero. */
  predicate Carries(m: Option<Message>) {
    && m.Some? && m.value.isAssistant && m.value.usage.Some?
    && var Usage(input, output, cacheRead, cacheCreation) := m.value.usage.value;
    input != 0 || output != 0 || cacheRead != 0 || cacheCreation != 0
  }

  /** The usage a raw event closes a message with. */
  function UsageOf(ev: RawEvent): seq<Usage> {
    match ev
    case MessageEnd(m) => if Carries(m) then [m.value.usage.value] else []
    case TurnEnd(m) => if Carries(m) then [m.value.usage.value] else []
    case _ => []
  }

  ghost predicate NoSpan(out: Output) {
    forall i | 0 <= i < |out| :: !out[i].UsageSpan?
  }

  lemma {:induction false} NoSpans(out: Output)
    requires NoSpan(out)
    ensures Spans(out) == []
  {
    if out != [] {
      NoSpans(out[..|out| - 1]);
    }
  }

  lemma {:induction false} BlocksNoSpan(blocks: seq<Block>, n: nat, filter: Option<int>, t: Thinker)
    requires n <= |blocks| && NoSpan(t.out)
    ensures NoSpan(ThinkBlocks(blocks, n, filter, t).out)
  {
    if n > 0 {
      BlocksNoSpan(blocks, n - 1, filter, t);
    }
  }

  lemma MessageNoSpan(cfg: Config, m: Message, only: ContentIndex, live: set<int>, emitted: set<int>)
    ensures NoSpan(ThinkMessage(cfg, m, only, live, emitted).out)
  {
    if m.content.Blocks? {
      BlocksNoSpan(m.content.blocks, |m.content.blocks|, OnlyIndex(only), Thinker(live, emitted, []));
    }
  }

  lemma SpansAtEnd(thoughts: Output, said: Output, usage: Output)
    requires NoSpan(thoughts) && NoSpan(said)
    ensures Spans(thoughts + said + usage) == Spans(usage)
  {
    NoSpans(thoughts + said);
    GatherAppend(SpanOf, thoughts + said, usage);
    assert [] + Spans(usage) == Spans(usage);
  }

  lemma CloseSpans(cfg: Config, st: State, m: Message)
    requires m.isAssistant
    ensures Spans(Close(cfg, st, m).1) == if Carries(Some(m)) then [m.usage.value] else []
  {
    MessageNoSpan(cfg, m, Absent, st.live, st.emitted);
    SpansAtEnd(ThinkMessage(cfg, m, Absent, st.live, st.emitted).out, Say(Rest(st, MessageText(m))), UsageEvents(m));
    if Carries(Some(m)) {
      GatherOne(SpanOf, UsageSpan(m.usage.value));
    }
  }

  lemma StepSpans(cfg: Config, st: State, upTo: seq<RawEvent>, ev: RawEvent)
    ensures Spans(Step(cfg, st, upTo, ev).1) == UsageOf(ev)
  {
    match ev
    case MessageEnd(m) =>
      if m.Some? && m.value.isAssistant {
        CloseSpans(cfg, st, m.value);
      }
    case TurnEnd(m) =>
      if m.Some? && m.value.isAssistant {
        CloseSpans(cfg, st, m.value);
      }
    case MessageUpdate(part, message) =>
      if IsThinkingPart(part) && part.ThinkingEnd? && message.Some? {
        MessageNoSpan(cfg, message.value, part.index, ThinkingPart(part, st.live).0, st.emitted);
      }
      NoSpans(Step(cfg, st, upTo, ev).1);
    case _ =>
      NoSpans(Step(cfg, st, upTo, ev).1);
  }

  /** A run emits one usage span for every message_end and every turn_end that carries
      one, in order, and no other. */
  lemma {:induction false} RunSpans(cfg: Config, st: State, past: seq<RawEvent>, raw: seq<RawEvent>)
    ensures Spans(After(cfg, st, past, raw).1) == Gather(UsageOf, raw)
  {
    if raw == [] {
      AfterNothing(cfg, st, past);
    } else {
      var n := |raw| - 1;
      var init, ev := raw[..n], raw[n];
      assert init + [ev] == raw;
      RunSpans(cfg, st, past, init);
      AfterExtends(cfg, st, past, init, ev);
      var (s, out) := After(cfg, st, past, init);
      StepSpans(cfg, s, past + init + [ev], ev);
      GatherAppend(SpanOf, out, Step(cfg, s, past + init + [ev], ev).1);
    }
  }

  predicate Ends(ev: RawEvent) { ev.MessageEnd? || ev.TurnEnd? }

  lemma {:induction false} NoEndNoUsage(raw: seq<RawEvent>)
    requires forall i | 0 <= i < |raw| :: !Ends(raw[i])
    ensures Gather(UsageOf, raw) == []
  {
    if raw != [] {
      NoEndNoUsage(raw[..|raw| - 1]);
    }
  }

  /** A message that ends and whose turn then ends has exactly one usage span if and only
      if exactly one of the two ends carries one; with both it is counted twice. */
  lemma OneSpan(cfg: Config, st: State, past: seq<RawEvent>, body: seq<RawEvent>, m: Option<Message>,
                between: seq<RawEvent>, again: Option<Message>)
    requires forall i | 0 <= i < |body| :: !Ends(body[i])
    requires forall i | 0 <= i < |between| :: !Ends(between[i])
    ensures
      var spans := Spans(After(cfg, st, past, body + [MessageEnd(m)] + between + [TurnEnd(again)]).1);
      && (|spans| == 1 <==> Carries(m) != Carries(again))
      && (|spans| == 2 <==> Carries(m) && Carries(again))
  {
    var raw := body + [MessageEnd(m)] + between + [TurnEnd(again)];
    RunSpans(cfg, st, past, raw);
    NoEndNoUsage(body);
    NoEndNoUsage(between);
    GatherExtends(UsageOf, body, MessageEnd(m));
    GatherAppend(UsageOf, body + [MessageEnd(m)], between);
    GatherExtends(UsageOf, body + [MessageEnd(m)] + between, TurnEnd(again));
  }
}
