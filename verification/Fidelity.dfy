/** What the model said is what the consumer rebuilds. */
module Fidelity {
  import opened Folds
  import opened Text
  import opened Wire
  import opened Emit
  import opened Assemble

  /** An update whose text the emitter looks at: thinking updates are not. */
  predicate IsTextUpdate(ev: RawEvent) {
    ev.MessageUpdate? && !IsThinkingPart(ev.part) && ev.message.Some?
  }

  function UpdateText(ev: RawEvent): string
    requires IsTextUpdate(ev)
  {
    RawText(ev.message.value.content)
  }

  /** The message's raw text grows by prefixes up to `final`; thinking updates and
      updates without a message may be interleaved anywhere. */
  ghost predicate Grows(updates: seq<RawEvent>, final: string) {
    && (forall u | u in updates :: u.MessageUpdate?)
    && (forall i | 0 <= i < |updates| && IsTextUpdate(updates[i]) :: UpdateText(updates[i]) <= final)
    && forall i, j | 0 <= i < j < |updates| && IsTextUpdate(updates[i]) && IsTextUpdate(updates[j]) ::
         UpdateText(updates[i]) <= UpdateText(updates[j])
  }

  /** Raw text of the last text update, "" when there was none. */
  function LastUpdate(updates: seq<RawEvent>): string {
    if updates == [] then ""
    else
      var u := updates[|updates| - 1];
      if IsTextUpdate(u) then UpdateText(u) else LastUpdate(updates[..|updates| - 1])
  }

  function OneMessage(updates: seq<RawEvent>, final: Message): seq<RawEvent> {
    [MessageStart] + updates + [MessageEnd(Some(final))]
  }

  lemma {:induction false} LastUpdateBelow(init: seq<RawEvent>, updates: seq<RawEvent>, n: nat, final: string)
    requires init <= updates && |init| <= n < |updates| && Grows(updates, final)
    ensures IsTextUpdate(updates[n]) ==> LastUpdate(init) <= UpdateText(updates[n])
  {
    if init != [] {
      var k := |init| - 1;
      assert init[k] == updates[k];
      LastUpdateBelow(init[..k], updates, n, final);
    }
  }

  lemma {:induction false} LastUpdateWithin(updates: seq<RawEvent>, final: string)
    requires Grows(updates, final)
    ensures LastUpdate(updates) <= final
  {
    if updates != [] {
      var init := updates[..|updates| - 1];
      assert forall i | 0 <= i < |init| :: init[i] == updates[i] && init[i] in updates;
      LastUpdateWithin(init, final);
    }
  }

  /** After any number of updates the emitter has said exactly the stripped text
      of the last one. */
  lemma {:induction false} UpdatesSaid(cfg: Config, st: State, past: seq<RawEvent>,
        updates: seq<RawEvent>, final: string)
    requires st.lastLen == 0 && Grows(updates, final)
    ensures
      var (s, out) := After(cfg, st, past, updates);
      && Spoken(out) == PyStrip(LastUpdate(updates))
      && s.lastLen == |PyStrip(LastUpdate(updates))|
      && s.seen == st.seen
      && Unbroken(out)
  {
    if updates == [] {
      assert PyStrip("") == "";
    } else {
      var n := |updates| - 1;
      var u := updates[n];
      var init := updates[..n];
      assert init + [u] == updates && u in updates;
      assert Grows(init, final) by {
        assert forall i | 0 <= i < n :: init[i] == updates[i] && init[i] in updates;
      }
      UpdatesSaid(cfg, st, past, init, final);
      assert IsTextUpdate(u) ==> LastUpdate(init) <= UpdateText(u) by {
        LastUpdateBelow(init, updates, n, final);
      }
      AfterExtends(cfg, st, past, init, u);
      var (s, out) := After(cfg, st, past, init);
      var said := LastUpdate(init);
      var more := Step(cfg, s, past + init + [u], u).1;
      UpdateSaid(cfg, s, past + init + [u], u, said);
      GatherAppend(SpokenOf, out, more);
    }
  }

  /** No text for the consumer and no segment break: all thinking events are so. */
  predicate Quiet(e: WireEvent) { !e.AgentMessage? && !Breaks(e) }

  ghost predicate AllQuiet(out: Output) {
    forall i | 0 <= i < |out| :: Quiet(out[i])
  }

  lemma {:induction false} QuietSaysNothing(before: Output, out: Output)
    requires AllQuiet(out)
    ensures Spoken(before + out) == Spoken(before)
    ensures Unbroken(before) ==> Unbroken(before + out)
  {
    if out == [] {
      assert before + out == before;
    } else {
      var n := |out| - 1;
      QuietSaysNothing(before, out[..n]);
      assert (before + out)[..|before| + n] == before + out[..n];
      assert before + out == before + out[..n] + [out[n]];
    }
  }

  lemma {:induction false} QuietBlocks(blocks: seq<Block>, n: nat, filter: Option<int>, t: Thinker)
    requires n <= |blocks| && AllQuiet(t.out)
    ensures AllQuiet(ThinkBlocks(blocks, n, filter, t).out)
  {
    if n > 0 {
      QuietBlocks(blocks, n - 1, filter, t);
    }
  }

  lemma QuietMessage(cfg: Config, m: Message, only: ContentIndex, live: set<int>, emitted: set<int>)
    ensures AllQuiet(ThinkMessage(cfg, m, only, live, emitted).out)
  {
    if m.content.Blocks? {
      QuietBlocks(m.content.blocks, |m.content.blocks|, OnlyIndex(only), Thinker(live, emitted, []));
    }
  }

  lemma QuietUpdate(cfg: Config, st: State, upTo: seq<RawEvent>, u: RawEvent)
    requires u.MessageUpdate? && !IsTextUpdate(u)
    ensures
      var (s, out) := Step(cfg, st, upTo, u);
      AllQuiet(out) && s.lastLen == st.lastLen && s.seen == st.seen
  {
    if u.part.ThinkingEnd? && u.message.Some? {
      QuietMessage(cfg, u.message.value, u.part.index, ThinkingPart(u.part, st.live).0, st.emitted);
    }
  }

  /** One text update after the stripped form of `said` was streamed. */
  lemma TextUpdateSaid(cfg: Config, st: State, upTo: seq<RawEvent>, u: RawEvent, said: string)
    requires IsTextUpdate(u) && said <= UpdateText(u) && st.lastLen == |PyStrip(said)|
    ensures
      var (s, out) := Step(cfg, st, upTo, u);
      var now := MessageText(u.message.value);
      PyStrip(said) + Spoken(out) == now && s.lastLen == |now| && s.seen == st.seen && Unbroken(out)
  {
    var now := MessageText(u.message.value);
    StripDelta(said, UpdateText(u));
    if |now| > st.lastLen {
      SaySpoken(now[st.lastLen..]);
      assert Step(cfg, st, upTo, u) == (st.(lastLen := |now|), [AgentMessage(now[st.lastLen..])]);
    } else {
      assert Step(cfg, st, upTo, u) == (st, []);
    }
  }

  lemma SaySpoken(text: string)
    ensures Spoken(Say(text)) == text && Spoken([AgentMessage(text)]) == text
    ensures Unbroken(Say(text)) && Unbroken([AgentMessage(text)])
  {
    GatherOne(SpokenOf, AgentMessage(text));
  }

  /** One update after the stripped form of `said` was streamed. */
  lemma UpdateSaid(cfg: Config, st: State, upTo: seq<RawEvent>, u: RawEvent, said: string)
    requires u.MessageUpdate? && st.lastLen == |PyStrip(said)|
    requires IsTextUpdate(u) ==> said <= UpdateText(u)
    ensures
      var (s, out) := Step(cfg, st, upTo, u);
      var now := PyStrip(if IsTextUpdate(u) then UpdateText(u) else said);
      PyStrip(said) + Spoken(out) == now && s.lastLen == |now| && s.seen == st.seen && Unbroken(out)
  {
    if IsTextUpdate(u) {
      TextUpdateSaid(cfg, st, upTo, u, said);
    } else {
      var out := Step(cfg, st, upTo, u).1;
      QuietUpdate(cfg, st, upTo, u);
      QuietSaysNothing([], out);
      assert [] + out == out && PyStrip(said) + "" == PyStrip(said);
    }
  }

  /** Closing a message says the part of its text not yet streamed, unless that
      very text was said before. */
  lemma CloseSaid(cfg: Config, st: State, m: Message)
    ensures
      var (s, out) := Close(cfg, st, m);
      var text := MessageText(m);
      && Spoken(out) == Rest(st, text)
      && s.seen == (if text == "" then st.seen else st.seen + {text}) && s.lastLen == 0
      && Unbroken(out)
  {
    QuietMessage(cfg, m, Absent, st.live, st.emitted);
    SaidBetween(ThinkMessage(cfg, m, Absent, st.live, st.emitted).out, Rest(st, MessageText(m)), UsageEvents(m));
  }

  lemma SaidBetween(before: Output, text: string, after: Output)
    requires AllQuiet(before) && AllQuiet(after)
    ensures Spoken(before + Say(text) + after) == text && Unbroken(before + Say(text) + after)
  {
    assert [] + before == before;
    QuietSaysNothing([], before);
    SaySpoken(text);
    GatherAppend(SpokenOf, before, Say(text));
    QuietSaysNothing(before + Say(text), after);
  }

  /** The texts one message puts on the wire, from any state and after any past:
      its whole text, or only the streamed part if the whole was said before. */
  lemma MessageSaid(cfg: Config, st: State, past: seq<RawEvent>, updates: seq<RawEvent>, final: Message)
    requires final.isAssistant && Grows(updates, RawText(final.content))
    ensures
      var (s, out) := After(cfg, st, past, OneMessage(updates, final));
      var text := MessageText(final);
      && Spoken(out) == (if text in st.seen then PyStrip(LastUpdate(updates)) else text)
      && s.seen == (if text == "" then st.seen else st.seen + {text}) && s.lastLen == 0
      && Unbroken(out)
  {
    var begun := [MessageStart] + updates;
    var s1 := After(cfg, st, past, begun).0;
    OpenedSaid(cfg, st, past, updates, RawText(final.content));
    Ended(cfg, st, past, begun, final, MessageEnd(Some(final)));
    CloseSaid(cfg, s1, final);
    LastUpdateWithin(updates, RawText(final.content));
    StripDelta(LastUpdate(updates), RawText(final.content));
  }

  /** Appending a message_end or turn_end adds exactly what closing the message says. */
  lemma Ended(cfg: Config, st: State, past: seq<RawEvent>, begun: seq<RawEvent>, m: Message, end: RawEvent)
    requires m.isAssistant && (end == MessageEnd(Some(m)) || end == TurnEnd(Some(m)))
    ensures
      var (s1, out1) := After(cfg, st, past, begun);
      var (s2, out2) := Close(cfg, s1, m);
      var (s, out) := After(cfg, st, past, begun + [end]);
      && s == s2 && out == out1 + out2
      && Spoken(out) == Spoken(out1) + Spoken(out2)
      && (Unbroken(out1) && Unbroken(out2) ==> Unbroken(out))
  {
    AfterExtends(cfg, st, past, begun, end);
    var (s1, out1) := After(cfg, st, past, begun);
    GatherAppend(SpokenOf, out1, Close(cfg, s1, m).1);
  }

  /** A fresh message and its updates so far. */
  lemma OpenedSaid(cfg: Config, st: State, past: seq<RawEvent>, updates: seq<RawEvent>, final: string)
    requires Grows(updates, final)
    ensures
      var (s, out) := After(cfg, st, past, [MessageStart] + updates);
      && Spoken(out) == PyStrip(LastUpdate(updates))
      && s.lastLen == |PyStrip(LastUpdate(updates))|
      && s.seen == st.seen
      && Unbroken(out)
  {
    AfterOpening(cfg, st, past, updates);
    UpdatesSaid(cfg, State(0, {}, {}, st.seen), past + [MessageStart], updates, final);
  }

  // ---- what may follow a message in its turn ------------------------------

  /** Events after a message that bring no new text and no break: its turn_end and
      other ends or texts repeating it, thinking updates, and anything not looked at. */
  predicate Trails(text: string, ev: RawEvent) {
    match ev
    case MessageUpdate(_, _) => !IsTextUpdate(ev)
    case AssistantText(_, _) => AssistantTextOf(ev) == "" || AssistantTextOf(ev) == text
    case MessageStart => true
    case MessageEnd(m) => Repeats(text, m)
    case TurnEnd(m) => Repeats(text, m)
    case ToolCall(_, _, _, _, _, _, _) => false
    case ToolDone(_, _, _, _) => false
    case OtherRaw => true
  }

  predicate Repeats(text: string, m: Option<Message>) {
    m.Some? && m.value.isAssistant ==> MessageText(m.value) == "" || MessageText(m.value) == text
  }

  lemma TrailStep(cfg: Config, st: State, upTo: seq<RawEvent>, ev: RawEvent, text: string)
    requires text in st.seen && Trails(text, ev)
    ensures
      var (s, out) := Step(cfg, st, upTo, ev);
      Spoken(out) == "" && Unbroken(out) && text in s.seen
  {
    match ev
    case MessageUpdate(_, _) =>
      QuietUpdate(cfg, st, upTo, ev);
      QuietSaysNothing([], Step(cfg, st, upTo, ev).1);
      assert [] + Step(cfg, st, upTo, ev).1 == Step(cfg, st, upTo, ev).1;
    case MessageEnd(m) =>
      if m.Some? && m.value.isAssistant {
        CloseSaid(cfg, st, m.value);
      }
    case TurnEnd(m) =>
      if m.Some? && m.value.isAssistant {
        CloseSaid(cfg, st, m.value);
      }
    case _ =>
  }

  /** Whatever trails a message says nothing more. */
  lemma {:induction false} TailSaysNothing(cfg: Config, st: State, past: seq<RawEvent>, tail: seq<RawEvent>,
        text: string)
    requires text in st.seen && forall ev | ev in tail :: Trails(text, ev)
    ensures
      var (s, out) := After(cfg, st, past, tail);
      Spoken(out) == "" && Unbroken(out) && text in s.seen
  {
    if tail == [] {
      AfterNothing(cfg, st, past);
    } else {
      var n := |tail| - 1;
      var init, ev := tail[..n], tail[n];
      assert init + [ev] == tail && ev in tail;
      TailSaysNothing(cfg, st, past, init, text);
      AfterExtends(cfg, st, past, init, ev);
      var (s, out) := After(cfg, st, past, init);
      TrailStep(cfg, s, past + init + [ev], ev, text);
      GatherAppend(SpokenOf, out, Step(cfg, s, past + init + [ev], ev).1);
    }
  }

  // ---- main results ------------------------------------------------------

  /** The deltas of one message join to its stripped final text exactly when that
      text was not said before, or was streamed in full. */
  lemma DeltaFidelity(cfg: Config, st: State, past: seq<RawEvent>, updates: seq<RawEvent>, final: Message)
    requires final.isAssistant && Grows(updates, RawText(final.content))
    ensures
      var out := After(cfg, st, past, OneMessage(updates, final)).1;
      var text := MessageText(final);
      Spoken(out) == text <==> text !in st.seen || PyStrip(LastUpdate(updates)) == text
  {
    MessageSaid(cfg, st, past, updates, final);
  }

  /** From model to consumer: after any past, and in a log `before` that is empty or
      ends in a segment break, both assemblers rebuild the message. */
  lemma EndToEnd(cfg: Config, st: State, past: seq<RawEvent>, updates: seq<RawEvent>, final: Message, before: Output)
    requires final.isAssistant && Grows(updates, RawText(final.content))
    requires before == [] || Breaks(before[|before| - 1])
    requires MessageText(final) != ""
    requires MessageText(final) !in st.seen || PyStrip(LastUpdate(updates)) == MessageText(final)
    ensures
      var log := before + After(cfg, st, past, OneMessage(updates, final)).1;
      && LastText(Segments(log), PySpace) == MessageText(final)
      && LastText(Segments(log), GoSpace) == MessageText(final)
  {
    var out := After(cfg, st, past, OneMessage(updates, final)).1;
    MessageSaid(cfg, st, past, updates, final);
    PyStripFixed(RawText(final.content));
    ReadsBack(before, out, PySpace);
    ReadsBack(before, out, GoSpace);
  }

  /** A turn_end that repeats the message just ended says nothing more. */
  lemma TurnEndAddsNoText(cfg: Config, st: State, past: seq<RawEvent>, updates: seq<RawEvent>, final: Message)
    requires final.isAssistant && Grows(updates, RawText(final.content))
    ensures
      var raw := OneMessage(updates, final);
      Spoken(After(cfg, st, past, raw + [TurnEnd(Some(final))]).1) == Spoken(After(cfg, st, past, raw).1)
  {
    var raw := OneMessage(updates, final);
    MessageSaid(cfg, st, past, updates, final);
    Ended(cfg, st, past, raw, final, TurnEnd(Some(final)));
    CloseSaid(cfg, After(cfg, st, past, raw).0, final);
  }

  /** What a message and everything trailing it say: the message. */
  lemma TrailedMessageSaid(cfg: Config, st: State, past: seq<RawEvent>, updates: seq<RawEvent>, final: Message,
        tail: seq<RawEvent>)
    requires final.isAssistant && Grows(updates, RawText(final.content)) && MessageText(final) != ""
    requires forall ev | ev in tail :: Trails(MessageText(final), ev)
    ensures
      var out := After(cfg, st, past, OneMessage(updates, final) + tail).1;
      && Spoken(out) == Spoken(After(cfg, st, past, OneMessage(updates, final)).1) && Unbroken(out)
  {
    var raw := OneMessage(updates, final);
    MessageSaid(cfg, st, past, updates, final);
    var (s, out) := After(cfg, st, past, raw);
    TailSaysNothing(cfg, s, past + raw, tail, MessageText(final));
    AfterSplits(cfg, st, past, raw, tail);
    GatherAppend(SpokenOf, out, After(cfg, s, past + raw, tail).1);
  }

  /** The failing family is real: a text already said as a whole, then streamed
      halfway, loses its second half. */
  lemma DroppedSuffix(cfg: Config)
    ensures
      var whole := AssistantText(Some("ab"), NoContent);
      var half := MessageUpdate(NoPart, Some(Message(true, Plain("a"), None)));
      var final := Message(true, Plain("ab"), None);
      var st := Batch(cfg, FRESH, [whole]).0;
      Spoken(After(cfg, st, [whole], OneMessage([half], final)).1) == "a"
  {
    var whole := AssistantText(Some("ab"), NoContent);
    var half := MessageUpdate(NoPart, Some(Message(true, Plain("a"), None)));
    var final := Message(true, Plain("ab"), None);
    AfterExtends(cfg, FRESH, [], [], whole);
    assert [] + [whole] == [whole];
    var st := Batch(cfg, FRESH, [whole]).0;
    assert MessageText(final) in st.seen by {
      TrimTight("ab", PySpace);
    }
    TrimTight("a", PySpace);
    assert LastUpdate([half]) == "a";
    MessageSaid(cfg, st, [whole], [half], final);
  }
}
