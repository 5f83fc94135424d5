/** What a run of the emitter shows of the agent's thinking, told from the fields of the
    raw events alone. */
module ThoughtLaws {
  import opened Folds
  import opened Text
  import opened Wire
  import opened Emit
  import opened WireLaws

  // ---- the streams ---------------------------------------------------------------

  function IndexOf(index: ContentIndex): int {
    match index
    case At(i) => i
    case Absent => 0
    case Malformed => 0
  }

  datatype Chunk = Chunk(id: int, delta: string)

  function ChunkIn(e: WireEvent): seq<Chunk> {
    match e
    case ThinkingChunk(id, delta) => [Chunk(id, delta)]
    case _ => []
  }

  function ChunkBy(): Telling<Chunk> {
    (upTo, ev: RawEvent) =>
      match ev
      case MessageUpdate(ThinkingDelta(index, delta), _) => if delta == "" then [] else [Chunk(IndexOf(index), delta)]
      case _ => []
  }

  lemma BegunTells(begun: Output, id: int, delta: string)
    requires begun == [] || begun == [ThinkingStreamStart(id)]
    ensures Gather(ChunkIn, begun) == []
    ensures Gather(ChunkIn, begun + [ThinkingChunk(id, delta)]) == [Chunk(id, delta)]
  {
    GatherOne(ChunkIn, ThinkingStreamStart(id));
    GatherExtends(ChunkIn, begun, ThinkingChunk(id, delta));
    assert [] + [Chunk(id, delta)] == [Chunk(id, delta)];
  }

  lemma PartTells(part: StreamPart, live: set<int>)
    requires IsThinkingPart(part)
    ensures Gather(ChunkIn, ThinkingPart(part, live).1)
         == if part.ThinkingDelta? && part.delta != "" then [Chunk(IndexOf(part.index), part.delta)] else []
  {
    var id := ThinkingId(part.index);
    var begun := if id in live then [] else [ThinkingStreamStart(id)];
    match part
    case ThinkingStart(_) => BegunTells(begun, id, "");
    case ThinkingDelta(_, delta) =>
      BegunTells(begun, id, delta);
      assert begun + [] == begun;
    case ThinkingEnd(_) => GatherOne(ChunkIn, ThinkingStreamEnd(id));
  }

  lemma UpdateChunks(cfg: Config, st: State, upTo: seq<RawEvent>, ev: RawEvent)
    requires ev.MessageUpdate? && IsThinkingPart(ev.part)
    ensures Gather(ChunkIn, Step(cfg, st, upTo, ev).1) == ChunkBy()(upTo, ev)
  {
    var (live, out) := ThinkingPart(ev.part, st.live);
    PartTells(ev.part, st.live);
    if ev.part.ThinkingEnd? && ev.message.Some? {
      MessageThinks(cfg, ev.message.value, ev.part.index, live, st.emitted);
      var more := ThinkMessage(cfg, ev.message.value, ev.part.index, live, st.emitted).out;
      Unseen(ChunkIn, more);
      GatherAppend(ChunkIn, out, more);
    }
  }

  lemma CloseChunks(cfg: Config, st: State, m: Message)
    ensures Gather(ChunkIn, Close(cfg, st, m).1) == []
  {
    MessageThinks(cfg, m, Absent, st.live, st.emitted);
    Unseen(ChunkIn, Close(cfg, st, m).1);
  }

  /** The chunks of a run are the thinking deltas that are not empty, in order. */
  lemma RunChunks(cfg: Config, st: State, past: seq<RawEvent>, raw: seq<RawEvent>)
    ensures Gather(ChunkIn, After(cfg, st, past, raw).1) == Told(ChunkBy(), past, raw)
  {
    forall s, upTo, ev ensures TellsAt(cfg, ChunkIn, ChunkBy(), s, upTo, ev) {
      match ev
      case MessageUpdate(part, _) =>
        if IsThinkingPart(part) {
          UpdateChunks(cfg, s, upTo, ev);
        } else {
          Unseen(ChunkIn, Step(cfg, s, upTo, ev).1);
        }
      case MessageEnd(m) =>
        if m.Some? && m.value.isAssistant {
          CloseChunks(cfg, s, m.value);
        }
      case TurnEnd(m) =>
        if m.Some? && m.value.isAssistant {
          CloseChunks(cfg, s, m.value);
        }
      case _ =>
        Unseen(ChunkIn, Step(cfg, s, upTo, ev).1);
    }
    RunTells(cfg, ChunkIn, ChunkBy(), st, past, raw);
  }

  /** The streams open after one more event: a start or a delta opens its own, an end
      closes it, or all of them when it names none and comes with a block list; the
      borders of a message close all. */
  function LiveOn(live: set<int>, ev: RawEvent): set<int> {
    match ev
    case MessageUpdate(ThinkingStart(index), _) => live + {IndexOf(index)}
    case MessageUpdate(ThinkingDelta(index, _), _) => live + {IndexOf(index)}
    case MessageUpdate(ThinkingEnd(Absent), Some(Message(_, Blocks(_), _))) => {}
    case MessageUpdate(ThinkingEnd(index), _) => live - {IndexOf(index)}
    case MessageStart => {}
    case MessageEnd(_) => {}
    case TurnEnd(_) => {}
    case _ => live
  }

  function LiveAfter(live: set<int>, raw: seq<RawEvent>): set<int> {
    if raw == [] then live else LiveOn(LiveAfter(live, raw[..|raw| - 1]), raw[|raw| - 1])
  }

  lemma {:induction false} OneBlockLive(blocks: seq<Block>, n: nat, i: int, t: Thinker)
    requires n <= |blocks|
    ensures t.live - {i} <= ThinkBlocks(blocks, n, Some(i), t).live <= t.live
  {
    if n > 0 {
      OneBlockLive(blocks, n - 1, i, t);
    }
  }

  lemma StepLive(cfg: Config, st: State, upTo: seq<RawEvent>, ev: RawEvent)
    ensures Step(cfg, st, upTo, ev).0.live == LiveOn(st.live, ev)
  {
    match ev
    case MessageUpdate(ThinkingEnd(index), Some(m)) =>
      if m.content.Blocks? && OnlyIndex(index).Some? {
        var live := ThinkingPart(ThinkingEnd(index), st.live).0;
        OneBlockLive(m.content.blocks, |m.content.blocks|, OnlyIndex(index).value, Thinker(live, st.emitted, []));
      }
    case _ =>
  }

  /** The live set, with which the wire is in step, as the raw events tell it. */
  lemma {:induction false} RunLive(cfg: Config, st: State, past: seq<RawEvent>, raw: seq<RawEvent>)
    ensures After(cfg, st, past, raw).0.live == LiveAfter(st.live, raw)
  {
    if raw == [] {
      AfterNothing(cfg, st, past);
    } else {
      var init, ev := raw[..|raw| - 1], raw[|raw| - 1];
      assert raw == init + [ev];
      RunLive(cfg, st, past, init);
      AfterExtends(cfg, st, past, init, ev);
      StepLive(cfg, After(cfg, st, past, init).0, past + init + [ev], ev);
    }
  }

  // ---- the announced blocks --------------------------------------------------------

  datatype Thought = Thought(id: int, text: string, options: Option<ProviderOptions>)

  function ThoughtIn(e: WireEvent): seq<Thought> {
    match e
    case Thinking(id, text, options) => [Thought(id, text, options)]
    case _ => []
  }

  /** A redacted block keeps its data, another its signature, if it has one. */
  function ProviderOf(b: Block): Option<ProviderOptions>
    requires b.ThinkingBlock?
  {
    if b.redacted then Some(ProviderOptions("", b.signature))
    else if b.signature != "" then Some(ProviderOptions(b.signature, ""))
    else None
  }

  predicate Wants(only: Option<int>, blocks: seq<Block>, i: nat) {
    i < |blocks| && blocks[i].ThinkingBlock? && (only.None? || only.value == i)
  }

  /** The thinking blocks not announced yet, in order. */
  function Fresh(blocks: seq<Block>, n: nat, only: Option<int>, known: set<int>): seq<Thought>
    requires n <= |blocks|
  {
    if n == 0 then []
    else Fresh(blocks, n - 1, only, known) + FreshAt(blocks, n - 1, only, known)
  }

  function FreshAt(blocks: seq<Block>, i: nat, only: Option<int>, known: set<int>): seq<Thought>
    requires i < |blocks|
  {
    if Wants(only, blocks, i) && i !in known then [Thought(i, blocks[i].thinking, ProviderOf(blocks[i]))] else []
  }

  function Wanted(blocks: seq<Block>, only: Option<int>): set<int> {
    set i: nat | i < |blocks| && Wants(only, blocks, i) :: i as int
  }

  /** What an event may announce from: the blocks of its message, or of one index. */
  datatype Source = Nothing | From(blocks: seq<Block>, only: Option<int>)

  function SourceOf(ev: RawEvent): Source {
    match ev
    case MessageUpdate(ThinkingEnd(Absent), Some(Message(_, Blocks(blocks), _))) => From(blocks, None)
    case MessageUpdate(ThinkingEnd(index), Some(Message(_, Blocks(blocks), _))) => From(blocks, Some(IndexOf(index)))
    case MessageEnd(Some(Message(true, Blocks(blocks), _))) => From(blocks, None)
    case TurnEnd(Some(Message(true, Blocks(blocks), _))) => From(blocks, None)
    case _ => Nothing
  }

  function KnownAfter(known: set<int>, raw: seq<RawEvent>): set<int> {
    if raw == [] then known
    else
      var before, ev := KnownAfter(known, raw[..|raw| - 1]), raw[|raw| - 1];
      if ev.MessageStart? then {}
      else
        match SourceOf(ev)
        case Nothing => before
        case From(blocks, only) => before + Wanted(blocks, only)
  }

  function ThoughtsTold(known: set<int>, raw: seq<RawEvent>): seq<Thought> {
    if raw == [] then []
    else
      var init, ev := raw[..|raw| - 1], raw[|raw| - 1];
      ThoughtsTold(known, init) +
      match SourceOf(ev)
      case Nothing => []
      case From(blocks, only) => Fresh(blocks, |blocks|, only, KnownAfter(known, init))
  }

  function WantedUpTo(blocks: seq<Block>, n: nat, only: Option<int>): set<int> {
    set i: nat | i < n && Wants(only, blocks, i) :: i as int
  }

  lemma {:induction false} BlocksKnown(blocks: seq<Block>, n: nat, only: Option<int>, t: Thinker)
    requires n <= |blocks|
    ensures ThinkBlocks(blocks, n, only, t).emitted == t.emitted + WantedUpTo(blocks, n, only)
  {
    if n == 0 {
      assert WantedUpTo(blocks, 0, only) == {};
    } else {
      BlocksKnown(blocks, n - 1, only, t);
      OneMoreWanted(blocks, n, only);
    }
  }

  lemma {:induction false} BlocksTell(blocks: seq<Block>, n: nat, only: Option<int>, t: Thinker)
    requires n <= |blocks|
    ensures Gather(ThoughtIn, ThinkBlocks(blocks, n, only, t).out)
         == Gather(ThoughtIn, t.out) + Fresh(blocks, n, only, t.emitted)
  {
    if n == 0 {
      assert Gather(ThoughtIn, t.out) + [] == Gather(ThoughtIn, t.out);
    } else {
      BlocksTell(blocks, n - 1, only, t);
      MoreBlocks(blocks, n - 1, only, t);
    }
  }

  lemma MoreBlocks(blocks: seq<Block>, i: nat, only: Option<int>, t: Thinker)
    requires i < |blocks|
    requires Gather(ThoughtIn, ThinkBlocks(blocks, i, only, t).out)
          == Gather(ThoughtIn, t.out) + Fresh(blocks, i, only, t.emitted)
    ensures Gather(ThoughtIn, ThinkBlocks(blocks, i + 1, only, t).out)
         == Gather(ThoughtIn, t.out) + Fresh(blocks, i + 1, only, t.emitted)
  {
    var before := ThinkBlocks(blocks, i, only, t);
    SameFresh(blocks, i, only, t);
    NextBlock(blocks, i, only, t.emitted, Gather(ThoughtIn, t.out), before);
    assert ThinkBlocks(blocks, i + 1, only, t) == ThinkBlock(i, blocks[i], only, before);
  }

  lemma NextBlock(blocks: seq<Block>, i: nat, only: Option<int>, known: set<int>, told: seq<Thought>, before: Thinker)
    requires i < |blocks| && Gather(ThoughtIn, before.out) == told + Fresh(blocks, i, only, known)
    requires FreshAt(blocks, i, only, before.emitted) == FreshAt(blocks, i, only, known)
    ensures Gather(ThoughtIn, ThinkBlock(i, blocks[i], only, before).out) == told + Fresh(blocks, i + 1, only, known)
  {
    BlockTells(blocks, i, only, before);
    Regroup(told, Fresh(blocks, i, only, known), FreshAt(blocks, i, only, known));
  }

  /** The blocks before one do not decide whether it is known. */
  lemma SameFresh(blocks: seq<Block>, i: nat, only: Option<int>, t: Thinker)
    requires i < |blocks|
    ensures FreshAt(blocks, i, only, ThinkBlocks(blocks, i, only, t).emitted) == FreshAt(blocks, i, only, t.emitted)
  {
    BlocksKnown(blocks, i, only, t);
  }

  lemma Regroup<X>(a: seq<X>, b: seq<X>, c: seq<X>)
    ensures a + b + c == a + (b + c)
  {
  }

  lemma OneMoreWanted(blocks: seq<Block>, n: nat, only: Option<int>)
    requires 0 < n <= |blocks|
    ensures WantedUpTo(blocks, n, only)
         == WantedUpTo(blocks, n - 1, only) + if Wants(only, blocks, n - 1) then {n - 1} else {}
  {
  }

  lemma BlockTells(blocks: seq<Block>, index: nat, only: Option<int>, t: Thinker)
    requires index < |blocks|
    ensures Gather(ThoughtIn, ThinkBlock(index, blocks[index], only, t).out)
         == Gather(ThoughtIn, t.out) + FreshAt(blocks, index, only, t.emitted)
  {
    if Wants(only, blocks, index) {
      var b := blocks[index];
      var closed := if index in t.live then [ThinkingStreamEnd(index)] else [];
      var said := if index in t.emitted then [] else [Thinking(index, b.thinking, Options(b))];
      Unseen(ThoughtIn, closed);
      SaidTells(blocks, index, only, t.emitted, said);
      ThreeParts(t.out, closed, said);
    } else {
      assert Gather(ThoughtIn, t.out) + [] == Gather(ThoughtIn, t.out);
    }
  }

  lemma SaidTells(blocks: seq<Block>, index: nat, only: Option<int>, known: set<int>, said: Output)
    requires index < |blocks| && Wants(only, blocks, index)
    requires said == if index in known then [] else [Thinking(index, blocks[index].thinking, Options(blocks[index]))]
    ensures Gather(ThoughtIn, said) == FreshAt(blocks, index, only, known)
  {
    GatherOne(ThoughtIn, Thinking(index, blocks[index].thinking, Options(blocks[index])));
  }

  lemma ThreeParts(out: Output, closed: Output, said: Output)
    requires Gather(ThoughtIn, closed) == []
    ensures Gather(ThoughtIn, out + closed + said) == Gather(ThoughtIn, out) + Gather(ThoughtIn, said)
  {
    GatherAppend(ThoughtIn, out, closed);
    GatherAppend(ThoughtIn, out + closed, said);
    assert Gather(ThoughtIn, out) + [] == Gather(ThoughtIn, out);
  }

  lemma MessageTells(cfg: Config, m: Message, only: ContentIndex, live: set<int>, emitted: set<int>)
    requires m.content.Blocks?
    ensures
      var t, filter := ThinkMessage(cfg, m, only, live, emitted), OnlyIndex(only);
      && t.emitted == emitted + Wanted(m.content.blocks, filter)
      && Gather(ThoughtIn, t.out) == Fresh(m.content.blocks, |m.content.blocks|, filter, emitted)
  {
    var blocks, filter := m.content.blocks, OnlyIndex(only);
    BlocksTell(blocks, |blocks|, filter, Thinker(live, emitted, []));
    BlocksKnown(blocks, |blocks|, filter, Thinker(live, emitted, []));
    assert WantedUpTo(blocks, |blocks|, filter) == Wanted(blocks, filter);
    var done := ThinkBlocks(blocks, |blocks|, filter, Thinker(live, emitted, []));
    assert [] + Fresh(blocks, |blocks|, filter, emitted) == Fresh(blocks, |blocks|, filter, emitted);
    Unseen(ThoughtIn, Ends(cfg.order(done.live)));
    GatherAppend(ThoughtIn, done.out, Ends(cfg.order(done.live)));
    assert Gather(ThoughtIn, done.out) + [] == Gather(ThoughtIn, done.out);
  }

  lemma CloseTells(cfg: Config, st: State, m: Message)
    ensures
      var t := ThinkMessage(cfg, m, Absent, st.live, st.emitted);
      Gather(ThoughtIn, Close(cfg, st, m).1) == Gather(ThoughtIn, t.out)
  {
    var t := ThinkMessage(cfg, m, Absent, st.live, st.emitted);
    var said, usage := Say(Rest(st, MessageText(m))), UsageEvents(m);
    Unseen(ThoughtIn, said);
    Unseen(ThoughtIn, usage);
    GatherAppend(ThoughtIn, t.out, said);
    GatherAppend(ThoughtIn, t.out + said, usage);
    assert Gather(ThoughtIn, t.out) + [] + [] == Gather(ThoughtIn, t.out);
  }

  /** What one event announces, and the blocks known after it. */
  ghost predicate ThinksAt(st: State, s: State, out: Output, ev: RawEvent) {
    && Gather(ThoughtIn, out) == (match SourceOf(ev)
                                  case Nothing => []
                                  case From(blocks, only) => Fresh(blocks, |blocks|, only, st.emitted))
    && s.emitted == (if ev.MessageStart? then {}
                     else match SourceOf(ev)
                          case Nothing => st.emitted
                          case From(blocks, only) => st.emitted + Wanted(blocks, only))
  }

  lemma CloseThinks(cfg: Config, st: State, m: Message)
    ensures
      var (s, out) := Close(cfg, st, m);
      if m.content.Blocks? then
        && Gather(ThoughtIn, out) == Fresh(m.content.blocks, |m.content.blocks|, None, st.emitted)
        && s.emitted == st.emitted + Wanted(m.content.blocks, None)
      else Gather(ThoughtIn, out) == [] && s.emitted == st.emitted
  {
    CloseTells(cfg, st, m);
    if m.content.Blocks? {
      MessageTells(cfg, m, Absent, st.live, st.emitted);
    }
  }

  lemma EndThinks(cfg: Config, st: State, upTo: seq<RawEvent>, ev: RawEvent, m: Option<Message>)
    requires ev == MessageEnd(m) || ev == TurnEnd(m)
    ensures ThinksAt(st, Step(cfg, st, upTo, ev).0, Step(cfg, st, upTo, ev).1, ev)
  {
    if m.Some? && m.value.isAssistant {
      CloseThinks(cfg, st, m.value);
      assert Step(cfg, st, upTo, ev) == Close(cfg, st, m.value);
    } else {
      assert Step(cfg, st, upTo, ev) == (st.(lastLen := 0, live := {}), []);
    }
  }

  lemma UpdateThinks(cfg: Config, st: State, upTo: seq<RawEvent>, ev: RawEvent)
    requires ev.MessageUpdate?
    ensures ThinksAt(st, Step(cfg, st, upTo, ev).0, Step(cfg, st, upTo, ev).1, ev)
  {
    if !IsThinkingPart(ev.part) {
      Unseen(ThoughtIn, Step(cfg, st, upTo, ev).1);
    } else {
      var (live, out) := ThinkingPart(ev.part, st.live);
      Unseen(ThoughtIn, out);
      if ev.part.ThinkingEnd? && ev.message.Some? {
        MessageAfter(cfg, out, ev.message.value, ev.part.index, live, st.emitted);
      }
    }
  }

  /** A message's thoughts after events that are no thoughts. */
  lemma MessageAfter(cfg: Config, out: Output, m: Message, only: ContentIndex, live: set<int>, emitted: set<int>)
    requires Gather(ThoughtIn, out) == []
    ensures
      var t := ThinkMessage(cfg, m, only, live, emitted);
      Gather(ThoughtIn, out + t.out) == Gather(ThoughtIn, t.out)
    ensures m.content.Blocks? ==>
      var t, filter := ThinkMessage(cfg, m, only, live, emitted), OnlyIndex(only);
      && t.emitted == emitted + Wanted(m.content.blocks, filter)
      && Gather(ThoughtIn, t.out) == Fresh(m.content.blocks, |m.content.blocks|, filter, emitted)
  {
    var more := ThinkMessage(cfg, m, only, live, emitted).out;
    GatherAppend(ThoughtIn, out, more);
    assert [] + Gather(ThoughtIn, more) == Gather(ThoughtIn, more);
    if m.content.Blocks? {
      MessageTells(cfg, m, only, live, emitted);
    }
  }

  lemma StepThinks(cfg: Config, st: State, upTo: seq<RawEvent>, ev: RawEvent)
    ensures ThinksAt(st, Step(cfg, st, upTo, ev).0, Step(cfg, st, upTo, ev).1, ev)
  {
    match ev
    case MessageUpdate(_, _) => UpdateThinks(cfg, st, upTo, ev);
    case MessageEnd(m) => EndThinks(cfg, st, upTo, ev, m);
    case TurnEnd(m) => EndThinks(cfg, st, upTo, ev, m);
    case _ => OthersThink(cfg, st, upTo, ev);
  }

  lemma OthersThink(cfg: Config, st: State, upTo: seq<RawEvent>, ev: RawEvent)
    requires !ev.MessageUpdate? && !ev.MessageEnd? && !ev.TurnEnd?
    ensures ThinksAt(st, Step(cfg, st, upTo, ev).0, Step(cfg, st, upTo, ev).1, ev)
  {
    Unseen(ThoughtIn, Step(cfg, st, upTo, ev).1);
  }

  /** The announced thoughts of a run: at the end of a thinking part and of a message or
      turn, the thinking blocks its list has and no event since message_start announced,
      in order, each with its text and its provider options. */
  lemma {:induction false} RunThoughts(cfg: Config, st: State, past: seq<RawEvent>, raw: seq<RawEvent>)
    ensures
      var (s, out) := After(cfg, st, past, raw);
      && Gather(ThoughtIn, out) == ThoughtsTold(st.emitted, raw)
      && s.emitted == KnownAfter(st.emitted, raw)
  {
    if raw == [] {
      AfterNothing(cfg, st, past);
    } else {
      var init, ev := raw[..|raw| - 1], raw[|raw| - 1];
      assert raw == init + [ev];
      RunThoughts(cfg, st, past, init);
      AfterExtends(cfg, st, past, init, ev);
      var (s, out) := After(cfg, st, past, init);
      StepThinks(cfg, s, past + init + [ev], ev);
      GatherAppend(ThoughtIn, out, Step(cfg, s, past + init + [ev], ev).1);
    }
  }
}
