/** The protocol of the thinking events the emitter puts on the wire. */
module ThinkingProtocol {
  import opened Text
  import opened Wire
  import opened Emit

  // ---- streams: (start chunk* end)* for every thinking id ------------------

  /** The streams open after `out`, from `open`; None once an event is out of
      place: a start of an open stream, a chunk or end of one not open. */
  function Opened(open: set<int>, out: Output): Option<set<int>> {
    if out == [] then Some(open)
    else
      var before := Opened(open, out[..|out| - 1]);
      if before.None? then None else OpenedOne(before.value, out[|out| - 1])
  }

  function OpenedOne(open: set<int>, e: WireEvent): Option<set<int>> {
    match e
    case ThinkingStreamStart(id) => if id in open then None else Some(open + {id})
    case ThinkingChunk(id, _) => if id in open then Some(open) else None
    case ThinkingStreamEnd(id) => if id in open then Some(open - {id}) else None
    case _ => Some(open)
  }

  lemma {:induction false} OpenedAppend(open: set<int>, a: Output, b: Output)
    ensures Opened(open, a + b)
         == if Opened(open, a).None? then None else Opened(Opened(open, a).value, b)
  {
    if b == [] {
      assert a + b == a;
    } else {
      assert (a + b)[..|a + b| - 1] == a + b[..|b| - 1];
      OpenedAppend(open, a, b[..|b| - 1]);
    }
  }

  lemma OpenedSnoc(open: set<int>, a: Output, e: WireEvent)
    ensures Opened(open, a + [e])
         == if Opened(open, a).None? then None else OpenedOne(Opened(open, a).value, e)
  {
    assert (a + [e])[..|a|] == a;
  }

  predicate IsStreamEvent(e: WireEvent) {
    e.ThinkingStreamStart? || e.ThinkingChunk? || e.ThinkingStreamEnd?
  }

  ghost predicate NoStream(out: Output) {
    forall i | 0 <= i < |out| :: !IsStreamEvent(out[i])
  }

  lemma {:induction false} OpenedNoStream(open: set<int>, out: Output)
    requires NoStream(out)
    ensures Opened(open, out) == Some(open)
  {
    if out != [] {
      OpenedNoStream(open, out[..|out| - 1]);
    }
  }

  lemma OpenedOnly(open: set<int>, e: WireEvent)
    ensures Opened(open, [e]) == OpenedOne(open, e)
  {
    OpenedSnoc(open, [], e);
    assert [] + [e] == [e];
  }

  /** What a start or a chunk does first: open the stream unless it is. */
  lemma Begun(live: set<int>, id: int)
    ensures Opened(live, if id in live then [] else [ThinkingStreamStart(id)]) == Some(live + {id})
  {
    if id in live {
      assert live + {id} == live;
    } else {
      OpenedOnly(live, ThinkingStreamStart(id));
    }
  }

  lemma ChunkOpens(live: set<int>, id: int, delta: string)
    ensures
      Opened(live, (if id in live then [] else [ThinkingStreamStart(id)]) + [ThinkingChunk(id, delta)])
      == Some(live + {id})
  {
    Begun(live, id);
    OpenedSnoc(live, if id in live then [] else [ThinkingStreamStart(id)], ThinkingChunk(id, delta));
  }

  lemma EndCloses(live: set<int>, id: int)
    ensures Opened(live, if id in live then [ThinkingStreamEnd(id)] else []) == Some(live - {id})
  {
    if id in live {
      OpenedOnly(live, ThinkingStreamEnd(id));
    } else {
      assert live - {id} == live;
    }
  }

  lemma PartOpens(part: StreamPart, live: set<int>)
    requires IsThinkingPart(part)
    ensures
      var (l, out) := ThinkingPart(part, live);
      Opened(live, out) == Some(l)
  {
    var id := ThinkingId(part.index);
    match part
    case ThinkingStart(_) => Begun(live, id);
    case ThinkingDelta(_, delta) =>
      if delta == "" {
        Begun(live, id);
        var begun := if id in live then [] else [ThinkingStreamStart(id)];
        assert begun + [] == begun;
      } else {
        ChunkOpens(live, id, delta);
      }
    case ThinkingEnd(_) => EndCloses(live, id);
  }

  /** The streams `out` leaves open, from `open`, are the tracker's live ones. */
  ghost predicate InStep(open: set<int>, t: Thinker) {
    Opened(open, t.out) == Some(t.live)
  }

  lemma BlockInStep(open: set<int>, index: int, b: Block, filter: Option<int>, t: Thinker)
    requires InStep(open, t)
    ensures InStep(open, ThinkBlock(index, b, filter, t))
  {
    if Kept(filter, index) && b.ThinkingBlock? {
      var closed := if index in t.live then [ThinkingStreamEnd(index)] else [];
      var said := if index in t.emitted then [] else [Thinking(index, b.thinking, Options(b))];
      assert Opened(open, t.out + closed) == Some(t.live - {index}) by {
        if index in t.live {
          OpenedSnoc(open, t.out, ThinkingStreamEnd(index));
        } else {
          assert t.out + closed == t.out && t.live - {index} == t.live;
        }
      }
      OpenedAppend(open, t.out + closed, said);
      OpenedNoStream(t.live - {index}, said);
    }
  }

  lemma {:induction false} BlocksInStep(open: set<int>, blocks: seq<Block>, n: nat, filter: Option<int>, t: Thinker)
    requires n <= |blocks| && InStep(open, t)
    ensures InStep(open, ThinkBlocks(blocks, n, filter, t))
  {
    if n > 0 {
      BlocksInStep(open, blocks, n - 1, filter, t);
      BlockInStep(open, n - 1, blocks[n - 1], filter, ThinkBlocks(blocks, n - 1, filter, t));
    }
  }

  lemma {:induction false} EndsOpen(ids: seq<int>, live: set<int>)
    requires NoDup(ids) && forall x | x in ids :: x in live
    ensures Opened(live, Ends(ids)) == Some(live - set x | x in ids)
  {
    if ids == [] {
      assert live - (set x | x in ids) == live;
    } else {
      var n := |ids| - 1;
      EndsOpen(ids[..n], live);
      assert Ends(ids) == Ends(ids[..n]) + [ThinkingStreamEnd(ids[n])];
      OpenedSnoc(live, Ends(ids[..n]), ThinkingStreamEnd(ids[n]));
      assert (live - set x | x in ids[..n]) - {ids[n]} == live - set x | x in ids;
    }
  }

  lemma EndsOpenAll(order: set<int> -> seq<int>, live: set<int>)
    requires Walks(order)
    ensures Opened(live, Ends(order(live))) == Some({})
  {
    var ids := order(live);
    assert NoDup(ids) && forall x :: x in ids <==> x in live;
    EndsOpen(ids, live);
    var walked := set x | x in ids;
    forall x ensures x in walked <==> x in live {
      assert x in walked <==> x in ids;
    }
    assert walked == live;
    assert live - walked == {};
  }

  lemma MessageOpens(cfg: Config, m: Message, only: ContentIndex, live: set<int>, emitted: set<int>)
    requires Walks(cfg.order)
    ensures InStep(live, ThinkMessage(cfg, m, only, live, emitted))
  {
    var t := Thinker(live, emitted, []);
    if m.content.Blocks? {
      var blocks := m.content.blocks;
      BlocksInStep(live, blocks, |blocks|, OnlyIndex(only), t);
      var done := ThinkBlocks(blocks, |blocks|, OnlyIndex(only), t);
      EndsOpenAll(cfg.order, done.live);
      OpenedAppend(live, done.out, Ends(cfg.order(done.live)));
    }
  }

  /** Does this event forget live streams without ending them on the wire? */
  predicate Resets(ev: RawEvent) {
    match ev
    case MessageStart => true
    case MessageEnd(m) => !(m.Some? && m.value.isAssistant && m.value.content.Blocks?)
    case TurnEnd(m) => !(m.Some? && m.value.isAssistant && m.value.content.Blocks?)
    case _ => false
  }

  lemma CloseOpens(cfg: Config, st: State, m: Message)
    requires Walks(cfg.order)
    ensures
      var (s, out) := Close(cfg, st, m);
      s.live == {} && Opened(st.live, out) == Some(if m.content.Blocks? then {} else st.live)
  {
    MessageOpens(cfg, m, Absent, st.live, st.emitted);
    Beside(st.live, ThinkMessage(cfg, m, Absent, st.live, st.emitted), Rest(st, MessageText(m)), UsageEvents(m));
  }

  lemma Beside(open: set<int>, t: Thinker, text: string, usage: Output)
    requires NoStream(usage) && InStep(open, t)
    ensures Opened(open, t.out + Say(text) + usage) == Some(t.live)
  {
    OpenedAppend(open, t.out, Say(text));
    OpenedAppend(open, t.out + Say(text), usage);
    OpenedNoStream(t.live, Say(text));
    OpenedNoStream(t.live, usage);
  }

  /** One event keeps the wire in step with the live set, unless it resets it. */
  lemma StepOpens(cfg: Config, st: State, upTo: seq<RawEvent>, ev: RawEvent)
    requires Walks(cfg.order)
    ensures
      var (s, out) := Step(cfg, st, upTo, ev);
      && Opened(st.live, out) == Some(if Resets(ev) then st.live else s.live)
      && (Resets(ev) ==> s.live == {})
  {
    match ev
    case MessageUpdate(part, message) =>
      if IsThinkingPart(part) {
        PartOpens(part, st.live);
        if part.ThinkingEnd? && message.Some? {
          var (live, out) := ThinkingPart(part, st.live);
          MessageOpens(cfg, message.value, part.index, live, st.emitted);
          OpenedAppend(st.live, out, ThinkMessage(cfg, message.value, part.index, live, st.emitted).out);
        }
      } else {
        OpenedNoStream(st.live, Step(cfg, st, upTo, ev).1);
      }
    case MessageEnd(m) =>
      if m.Some? && m.value.isAssistant { CloseOpens(cfg, st, m.value); }
    case TurnEnd(m) =>
      if m.Some? && m.value.isAssistant { CloseOpens(cfg, st, m.value); }
    case _ =>
      OpenedNoStream(st.live, Step(cfg, st, upTo, ev).1);
  }

  /** Some event of the run resets the trackers while a stream is open. */
  ghost predicate Abandons(cfg: Config, st: State, past: seq<RawEvent>, raw: seq<RawEvent>) {
    exists i :: 0 <= i < |raw| && Resets(raw[i]) && After(cfg, st, past, raw[..i]).0.live != {}
  }

  /** Streams left over from elsewhere stay open beside those of this output, or
      make it ill-formed; they are never closed by it. */
  lemma {:induction false} LeftOver(live: set<int>, extra: set<int>, out: Output)
    requires live !! extra && Opened(live, out).Some?
    ensures
      var l := Opened(live, out).value;
      var both := Opened(live + extra, out);
      both == None || (l !! extra && both == Some(l + extra))
  {
    if out != [] {
      var n := |out| - 1;
      LeftOver(live, extra, out[..n]);
      var l := Opened(live, out[..n]).value;
      if Opened(live + extra, out[..n]).Some? {
        LeftOverOne(l, extra, out[n]);
      }
    }
  }

  lemma LeftOverOne(l: set<int>, extra: set<int>, e: WireEvent)
    requires l !! extra && OpenedOne(l, e).Some?
    ensures
      var l' := OpenedOne(l, e).value;
      var both := OpenedOne(l + extra, e);
      both == None || (l' !! extra && both == Some(l' + extra))
  {
    match e
    case ThinkingStreamStart(id) =>
      if id !in extra { assert l + extra + {id} == l + {id} + extra; }
    case ThinkingStreamEnd(id) =>
      assert l + extra - {id} == l - {id} + extra;
    case _ =>
  }

  /** Main result: on the wire every thinking stream is a start, chunks and an end,
      and the open ones are the live ones, exactly when no event resets the
      trackers while a stream is open. */
  lemma {:induction false} StreamsWellFormed(cfg: Config, st: State, past: seq<RawEvent>, raw: seq<RawEvent>)
    requires Walks(cfg.order)
    ensures
      var (s, out) := After(cfg, st, past, raw);
      && (!Abandons(cfg, st, past, raw) ==> Opened(st.live, out) == Some(s.live))
      && (Abandons(cfg, st, past, raw) ==> Opened(st.live, out).None? || s.live < Opened(st.live, out).value)
  {
    if raw == [] {
      AfterNothing(cfg, st, past);
    } else {
      var n := |raw| - 1;
      var init, ev := raw[..n], raw[n];
      assert init + [ev] == raw;
      StreamsWellFormed(cfg, st, past, init);
      var (s, out) := After(cfg, st, past, init);
      AfterExtends(cfg, st, past, init, ev);
      StepOpens(cfg, s, past + init + [ev], ev);
      AbandonsExtends(cfg, st, past, init, ev);
      OneMore(cfg, st.live, s, out, past + init + [ev], ev);
    }
  }

  lemma AbandonsExtends(cfg: Config, st: State, past: seq<RawEvent>, init: seq<RawEvent>, ev: RawEvent)
    ensures Abandons(cfg, st, past, init + [ev])
       <==> Abandons(cfg, st, past, init) || (Resets(ev) && After(cfg, st, past, init).0.live != {})
  {
    var raw := init + [ev];
    assert forall i | 0 <= i <= |init| :: raw[..i] == init[..i];
    assert init[..|init|] == init && raw[|init|] == ev;
    assert forall i | 0 <= i < |init| :: raw[i] == init[i];
  }

  /** The wire after one more event, from a wire that was in step or ahead. */
  lemma OneMore(cfg: Config, open: set<int>, s: State, out: Output, upTo: seq<RawEvent>, ev: RawEvent)
    requires Walks(cfg.order)
    requires Opened(open, out).None? || s.live <= Opened(open, out).value
    ensures
      var (s', more) := Step(cfg, s, upTo, ev);
      var wire := Opened(open, out + more);
      var inStep := Opened(open, out) == Some(s.live) && !(Resets(ev) && s.live != {});
      && (inStep ==> wire == Some(s'.live))
      && (!inStep ==> wire.None? || s'.live < wire.value)
  {
    var (s', more) := Step(cfg, s, upTo, ev);
    StepOpens(cfg, s, upTo, ev);
    OpenedAppend(open, out, more);
    if Opened(open, out).Some? {
      var extra := Opened(open, out).value - s.live;
      assert s.live + extra == Opened(open, out).value;
      LeftOver(s.live, extra, more);
      if extra == {} {
        assert s.live + extra == s.live;
      }
    }
  }

  // ---- a run of messages, each closed before the next opens ----------------

  /** A thinking part was streamed since the last assistant close with a list. */
  function Unclosed(raw: seq<RawEvent>): bool {
    if raw == [] then false
    else
      var ev := raw[|raw| - 1];
      if (ev.MessageEnd? || ev.TurnEnd?) && !Resets(ev) then false
      else if ev.MessageUpdate? && (ev.part.ThinkingStart? || ev.part.ThinkingDelta?) then true
      else Unclosed(raw[..|raw| - 1])
  }

  ghost predicate EachMessageClosed(raw: seq<RawEvent>) {
    forall i | 0 <= i < |raw| && Resets(raw[i]) :: !Unclosed(raw[..i])
  }

  lemma {:induction false} LiveIsUnclosed(cfg: Config, st: State, past: seq<RawEvent>, raw: seq<RawEvent>)
    requires Walks(cfg.order) && st.live == {}
    ensures After(cfg, st, past, raw).0.live != {} ==> Unclosed(raw)
  {
    if raw == [] {
      AfterNothing(cfg, st, past);
    } else {
      var n := |raw| - 1;
      var s := After(cfg, st, past, raw[..n]).0;
      assert raw[..n] + [raw[n]] == raw;
      LiveIsUnclosed(cfg, st, past, raw[..n]);
      AfterExtends(cfg, st, past, raw[..n], raw[n]);
      LiveGrows(cfg, s, past + raw[..n] + [raw[n]], raw[n]);
    }
  }

  lemma LiveGrows(cfg: Config, st: State, upTo: seq<RawEvent>, ev: RawEvent)
    requires Walks(cfg.order)
    ensures
      var s := Step(cfg, st, upTo, ev).0;
      && (ev.MessageEnd? || ev.TurnEnd? ==> s.live == {})
      && (!(ev.MessageUpdate? && (ev.part.ThinkingStart? || ev.part.ThinkingDelta?)) ==> s.live <= st.live)
  {
    if ev.MessageUpdate? && ev.part.ThinkingEnd? && ev.message.Some? {
      var live := ThinkingPart(ev.part, st.live).0;
      MessageShrinks(cfg, ev.message.value, ev.part.index, live, st.emitted);
    }
  }

  lemma MessageShrinks(cfg: Config, m: Message, only: ContentIndex, live: set<int>, emitted: set<int>)
    ensures ThinkMessage(cfg, m, only, live, emitted).live <= live
  {
    if m.content.Blocks? {
      BlocksShrink(m.content.blocks, |m.content.blocks|, OnlyIndex(only), Thinker(live, emitted, []));
    }
  }

  lemma {:induction false} BlocksShrink(blocks: seq<Block>, n: nat, filter: Option<int>, t: Thinker)
    requires n <= |blocks|
    ensures ThinkBlocks(blocks, n, filter, t).live <= t.live
  {
    if n > 0 { BlocksShrink(blocks, n - 1, filter, t); }
  }

  /** Messages that are each closed by an assistant message_end with list content
      keep the protocol, and nothing stays open after the close. */
  lemma ClosedMessagesWellFormed(cfg: Config, st: State, past: seq<RawEvent>, raw: seq<RawEvent>, final: Message)
    requires Walks(cfg.order) && st.live == {}
    requires EachMessageClosed(raw) && final.isAssistant && final.content.Blocks?
    ensures Opened({}, After(cfg, st, past, raw + [MessageEnd(Some(final))]).1) == Some({})
  {
    var end := MessageEnd(Some(final));
    forall i | 0 <= i < |raw| && Resets(raw[i])
      ensures After(cfg, st, past, raw[..i]).0.live == {}
    {
      LiveIsUnclosed(cfg, st, past, raw[..i]);
    }
    StreamsWellFormed(cfg, st, past, raw + [end]);
    AbandonsExtends(cfg, st, past, raw, end);
    AfterExtends(cfg, st, past, raw, end);
    LiveGrows(cfg, After(cfg, st, past, raw).0, past + raw + [end], end);
  }

  // ---- agent.thinking: once per block -------------------------------------

  function Thoughts(out: Output, id: int): nat {
    if out == [] then 0
    else Thoughts(out[..|out| - 1], id) + ThoughtsOne(out[|out| - 1], id)
  }

  function ThoughtsOne(e: WireEvent, id: int): nat {
    if e.Thinking? && e.thinkingId == id then 1 else 0
  }

  lemma {:induction false} ThoughtsAppend(a: Output, b: Output, id: int)
    ensures Thoughts(a + b, id) == Thoughts(a, id) + Thoughts(b, id)
  {
    if b == [] {
      assert a + b == a;
    } else {
      assert (a + b)[..|a + b| - 1] == a + b[..|b| - 1];
      ThoughtsAppend(a, b[..|b| - 1], id);
    }
  }

  lemma ThoughtsSnoc(a: Output, e: WireEvent, id: int)
    ensures Thoughts(a + [e], id) == Thoughts(a, id) + ThoughtsOne(e, id)
  {
    assert (a + [e])[..|a|] == a;
  }

  lemma {:induction false} NoThoughts(out: Output, id: int)
    requires forall i | 0 <= i < |out| :: !out[i].Thinking?
    ensures Thoughts(out, id) == 0
  {
    if out != [] { NoThoughts(out[..|out| - 1], id); }
  }

  /** Emitted ids only grow, and each newly emitted id is announced once. */
  ghost predicate Announced(before: set<int>, after: set<int>, out: Output, id: int) {
    before <= after && Thoughts(out, id) == if id in after && id !in before then 1 else 0
  }

  lemma SilentKeeps(before: set<int>, after: set<int>, out: Output, e: WireEvent, id: int)
    requires Announced(before, after, out, id) && !e.Thinking?
    ensures Announced(before, after, out + [e], id)
  {
    ThoughtsSnoc(out, e, id);
  }

  lemma NewAnnounced(before: set<int>, after: set<int>, out: Output, e: WireEvent, id: int)
    requires Announced(before, after, out, id) && e.Thinking? && e.thinkingId !in after
    ensures Announced(before, after + {e.thinkingId}, out + [e], id)
  {
    ThoughtsSnoc(out, e, id);
  }

  lemma BlockAnnounces(before: set<int>, index: int, b: Block, filter: Option<int>, t: Thinker, id: int)
    requires Announced(before, t.emitted, t.out, id)
    ensures
      var t' := ThinkBlock(index, b, filter, t);
      Announced(before, t'.emitted, t'.out, id)
  {
    if Kept(filter, index) && b.ThinkingBlock? {
      var mid := t.out + if index in t.live then [ThinkingStreamEnd(index)] else [];
      if index in t.live {
        SilentKeeps(before, t.emitted, t.out, ThinkingStreamEnd(index), id);
      } else {
        assert mid == t.out;
      }
      if index in t.emitted {
        assert mid + [] == mid && t.emitted + {index} == t.emitted;
      } else {
        NewAnnounced(before, t.emitted, mid, Thinking(index, b.thinking, Options(b)), id);
      }
    }
  }

  lemma {:induction false} BlocksAnnounce(before: set<int>, blocks: seq<Block>, n: nat, filter: Option<int>,
        t: Thinker, id: int)
    requires n <= |blocks| && Announced(before, t.emitted, t.out, id)
    ensures
      var t' := ThinkBlocks(blocks, n, filter, t);
      Announced(before, t'.emitted, t'.out, id)
  {
    if n > 0 {
      BlocksAnnounce(before, blocks, n - 1, filter, t, id);
      BlockAnnounces(before, n - 1, blocks[n - 1], filter, ThinkBlocks(blocks, n - 1, filter, t), id);
    }
  }

  /** Without a filter every thinking block ends up announced. */
  lemma {:induction false} BlocksCover(blocks: seq<Block>, n: nat, t: Thinker, id: nat)
    requires id < n <= |blocks| && blocks[id].ThinkingBlock?
    ensures id in ThinkBlocks(blocks, n, None, t).emitted
  {
    if id < n - 1 {
      BlocksCover(blocks, n - 1, t, id);
    }
  }

  /** Content block `id` of the message is a thinking block. */
  predicate HasThought(m: Message, id: int) {
    m.content.Blocks? && 0 <= id < |m.content.blocks| && m.content.blocks[id].ThinkingBlock?
  }

  lemma MessageAnnounces(cfg: Config, m: Message, only: ContentIndex, live: set<int>, emitted: set<int>, id: int)
    ensures
      var t := ThinkMessage(cfg, m, only, live, emitted);
      && Announced(emitted, t.emitted, t.out, id)
      && (only.Absent? && HasThought(m, id) ==> id in t.emitted)
  {
    var t := Thinker(live, emitted, []);
    if m.content.Blocks? {
      var blocks := m.content.blocks;
      BlocksAnnounce(emitted, blocks, |blocks|, OnlyIndex(only), t, id);
      if only.Absent? && HasThought(m, id) {
        BlocksCover(blocks, |blocks|, t, id);
      }
      var done := ThinkBlocks(blocks, |blocks|, OnlyIndex(only), t);
      NoThoughts(Ends(cfg.order(done.live)), id);
      ThoughtsAppend(done.out, Ends(cfg.order(done.live)), id);
    }
  }

  lemma CloseAnnounces(cfg: Config, st: State, m: Message, id: int)
    ensures
      var (s, out) := Close(cfg, st, m);
      && Announced(st.emitted, s.emitted, out, id)
      && (HasThought(m, id) ==> id in s.emitted)
  {
    MessageAnnounces(cfg, m, Absent, st.live, st.emitted, id);
    OnlyThoughts(ThinkMessage(cfg, m, Absent, st.live, st.emitted).out, Rest(st, MessageText(m)), m, id);
  }

  lemma SilentTail(thoughts: Output, a: Output, b: Output, id: int)
    requires forall i | 0 <= i < |a| :: !a[i].Thinking?
    requires forall i | 0 <= i < |b| :: !b[i].Thinking?
    ensures Thoughts(thoughts + a + b, id) == Thoughts(thoughts, id)
  {
    ThoughtsAppend(thoughts, a, id);
    ThoughtsAppend(thoughts + a, b, id);
    NoThoughts(a, id);
    NoThoughts(b, id);
  }

  lemma OnlyThoughts(thoughts: Output, text: string, m: Message, id: int)
    ensures Thoughts(thoughts + Say(text) + UsageEvents(m), id) == Thoughts(thoughts, id)
  {
    SilentTail(thoughts, Say(text), UsageEvents(m), id);
  }

  lemma StepAnnounces(cfg: Config, st: State, upTo: seq<RawEvent>, ev: RawEvent, id: int)
    requires !ev.MessageStart?
    ensures
      var (s, out) := Step(cfg, st, upTo, ev);
      Announced(st.emitted, s.emitted, out, id)
  {
    match ev
    case MessageUpdate(part, message) =>
      if IsThinkingPart(part) {
        var (live, out) := ThinkingPart(part, st.live);
        NoThoughts(out, id);
        if part.ThinkingEnd? && message.Some? {
          MessageAnnounces(cfg, message.value, part.index, live, st.emitted, id);
          ThoughtsAppend(out, ThinkMessage(cfg, message.value, part.index, live, st.emitted).out, id);
        }
      } else {
        NoThoughts(Step(cfg, st, upTo, ev).1, id);
      }
    case MessageEnd(m) =>
      if m.Some? && m.value.isAssistant { CloseAnnounces(cfg, st, m.value, id); }
    case TurnEnd(m) =>
      if m.Some? && m.value.isAssistant { CloseAnnounces(cfg, st, m.value, id); }
    case _ =>
      NoThoughts(Step(cfg, st, upTo, ev).1, id);
  }

  lemma {:induction false} RunAnnounces(cfg: Config, st: State, past: seq<RawEvent>, raw: seq<RawEvent>, id: int)
    requires forall i | 0 <= i < |raw| :: !raw[i].MessageStart?
    ensures
      var (s, out) := After(cfg, st, past, raw);
      Announced(st.emitted, s.emitted, out, id)
  {
    if raw == [] {
      AfterNothing(cfg, st, past);
    } else {
      var n := |raw| - 1;
      var init, ev := raw[..n], raw[n];
      assert init + [ev] == raw;
      RunAnnounces(cfg, st, past, init, id);
      var (s, out) := After(cfg, st, past, init);
      AfterExtends(cfg, st, past, init, ev);
      StepAnnounces(cfg, s, past + init + [ev], ev, id);
      ThoughtsAppend(out, Step(cfg, s, past + init + [ev], ev).1, id);
    }
  }

  function WholeMessage(body: seq<RawEvent>, final: Message): seq<RawEvent> {
    [MessageStart] + (body + [MessageEnd(Some(final))])
  }

  lemma WholeAnnounces(cfg: Config, st: State, past: seq<RawEvent>, body: seq<RawEvent>, final: Message, id: int)
    requires forall i | 0 <= i < |body| :: !body[i].MessageStart?
    requires final.isAssistant
    ensures
      var (s, out) := After(cfg, st, past, WholeMessage(body, final));
      && Announced({}, s.emitted, out, id)
      && (HasThought(final, id) ==> id in s.emitted)
  {
    var end := MessageEnd(Some(final));
    var s0 := State(0, {}, {}, st.seen);
    var past' := past + [MessageStart];
    AfterOpening(cfg, st, past, body + [end]);
    RunAnnounces(cfg, s0, past', body + [end], id);
    AfterExtends(cfg, s0, past', body, end);
    CloseAnnounces(cfg, After(cfg, s0, past', body).0, final, id);
  }

  /** From message_start through the closing message_end, whatever came between,
      each thinking block of the final message is announced exactly once and no
      id twice; whatever comes before the next message_start, turn_ends that repeat the
      message included, announces none of them again. */
  lemma OneThoughtPerBlock(cfg: Config, st: State, past: seq<RawEvent>, body: seq<RawEvent>, final: Message,
                           rest: seq<RawEvent>, id: int)
    requires forall i | 0 <= i < |body| :: !body[i].MessageStart?
    requires forall i | 0 <= i < |rest| :: !rest[i].MessageStart?
    requires final.isAssistant
    ensures
      var (s, out) := After(cfg, st, past, WholeMessage(body, final));
      var again := After(cfg, s, past + WholeMessage(body, final), rest).1;
      && Thoughts(out, id) <= 1
      && (HasThought(final, id) ==> Thoughts(out, id) == 1 && Thoughts(again, id) == 0)
  {
    var s := After(cfg, st, past, WholeMessage(body, final)).0;
    WholeAnnounces(cfg, st, past, body, final, id);
    RunAnnounces(cfg, s, past + WholeMessage(body, final), rest, id);
  }
}
