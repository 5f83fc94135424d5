/** The whole way of a streamed message: agent events, emitter called chunk by chunk,
    NDJSON stream with its keepalives, reader, assembler. */
module Pipeline {
  import opened Folds
  import opened Text
  import opened Wire
  import opened Emit
  import opened TurnListener
  import Assemble
  import Fidelity
  import Delivery

  /** Wire events as JSON lines and back, and which lines fit the reader's buffer; the
      generator's keepalives do. */
  datatype Json = Json(
    encode: WireEvent -> Delivery.Event, decode: Delivery.Event -> seq<WireEvent>, fits: Delivery.Buffer)

  ghost predicate Faithful(json: Json, out: Output) {
    json.fits(Delivery.Event(Delivery.KEEPALIVE, "")) && forall e | e in out :: json.decode(json.encode(e)) == [e]
  }

  /** Every line fits, and none calls itself a keepalive. */
  ghost predicate Passing(json: Json, out: Output) {
    forall e | e in out :: json.fits(json.encode(e)) && json.encode(e).kind != Delivery.KEEPALIVE
  }

  function Encoder(json: Json): WireEvent -> seq<Delivery.Event> { (e: WireEvent) => [json.encode(e)] }

  /** What the consumer reads from the lines of a finished stream. */
  function Received(json: Json, lines: seq<Delivery.Line>): Output {
    Gather(json.decode, Delivery.Read(json.fits, lines))
  }

  lemma LinesDecode(json: Json, out: Output)
    requires Faithful(json, out)
    ensures Gather(json.decode, Gather(Encoder(json), out)) == out && |Gather(Encoder(json), out)| == |out|
    ensures Delivery.AllPass(json.fits, Gather(Encoder(json), out)) <==> Passing(json, out)
    ensures forall line | line in Gather(Encoder(json), out) :: |json.decode(line)| == 1
  {
    EachSurvives(Encoder(json), json.decode, (e: WireEvent) => e, out);
    GatherEach(Encoder(json), out);
    var lines := Gather(Encoder(json), out);
    forall i | 0 <= i < |out| ensures lines[i] == json.encode(out[i]) && lines[i] in lines {
    }
  }

  /** Lines that decode to one event each. */
  lemma {:induction false} AsMany(json: Json, lines: seq<Delivery.Event>)
    requires forall line | line in lines :: |json.decode(line)| == 1
    ensures |Gather(json.decode, lines)| == |lines|
  {
    if lines != [] {
      var init, line := lines[..|lines| - 1], lines[|lines| - 1];
      assert lines == init + [line];
      AsMany(json, init);
      GatherExtends(json.decode, init, line);
    }
  }

  /** Whatever the interleaving of task, generator and timeouts, a consumer receives
      exactly the emitted events if and only if each of their lines fits the reader's
      buffer and none calls itself a keepalive. */
  lemma EventsArrive(json: Json, out: Output, s: Delivery.Stream, steps: seq<Delivery.Step>)
    requires Faithful(json, out) && s.produced == Gather(Encoder(json), out)
    requires Delivery.Reached(s, steps) && s.at.Ended? && s.task.Returned?
    ensures Received(json, s.lines) == out <==> Passing(json, out)
  {
    LinesDecode(json, out);
    assert Delivery.Meant(s) == s.produced;
    Delivery.ReaderGetsAll(json.fits, s, steps);
    AsMany(json, Delivery.Read(json.fits, s.lines));
  }

  /** Auxiliary events among a message's own are no messages and break no segment. */
  ghost predicate QuietAside(items: seq<Item>) {
    forall item | item in items && item.Auxiliary? :: Fidelity.Quiet(item.event)
  }

  /** Quiet auxiliary events anywhere among streamed ones change nothing that is said. */
  lemma {:induction false} AsideSaysNothing(items: seq<Item>)
    requires QuietAside(items) && Assemble.Unbroken(StreamedOf(items))
    ensures Spoken(EventsOf(items)) == Spoken(StreamedOf(items)) && Assemble.Unbroken(EventsOf(items))
  {
    if items != [] {
      var init, last := items[..|items| - 1], items[|items| - 1];
      assert items == init + [last];
      GatherExtends(EventOf, init, last);
      GatherExtends(StreamedBy, init, last);
      assert forall e | e in StreamedOf(init) :: e in StreamedOf(items);
      AsideSaysNothing(init);
      OneItemSays(init, last);
    }
  }

  lemma OneItemSays(init: seq<Item>, last: Item)
    requires last.Auxiliary? ==> Fidelity.Quiet(last.event)
    requires Spoken(EventsOf(init)) == Spoken(StreamedOf(init))
    ensures Spoken(EventsOf(init) + EventOf(last)) == Spoken(StreamedOf(init) + StreamedBy(last))
  {
    if last.Sentinel? {
      assert EventsOf(init) + [] == EventsOf(init) && StreamedOf(init) + [] == StreamedOf(init);
    } else {
      GatherExtends(SpokenOf, EventsOf(init), last.event);
      if last.Streamed? {
        GatherExtends(SpokenOf, StreamedOf(init), last.event);
      } else {
        assert StreamedOf(init) + [] == StreamedOf(init) && Spoken(EventsOf(init)) + "" == Spoken(EventsOf(init));
      }
    }
  }

  /** The chunks of a turn, by what the first of its raw events said and what the others
      say. */
  lemma RestSaid(cfg: Config, chunks: seq<seq<RawEvent>>, past: seq<RawEvent>, rest: seq<RawEvent>)
    requires Flatten(chunks) == past + rest
    ensures
      var (st, before) := Batch(cfg, FRESH, past);
      Chunked(cfg, FRESH, chunks).1 == before + After(cfg, st, past, rest).1
  {
    ChunkedIsBatch(cfg, FRESH, chunks);
    BatchSplits(cfg, FRESH, past, rest);
  }

  /** What was streamed after `before` is what `message` holds. */
  lemma QueuedAfter(before: seq<Item>, message: seq<Item>, first: Output, rest: Output)
    requires StreamedOf(before + message) == first + rest && StreamedOf(before) == first
    ensures StreamedOf(message) == rest
  {
    GatherAppend(StreamedBy, before, message);
    assert StreamedOf(message) == (first + rest)[|first|..];
  }

  /** What the model said is what the consumer rebuilds. A turn's raw events, cut into
      any chunks, end in a streamed message and what trails it, its turn_end above all;
      `before` is what was queued until the events preceding the message had spoken,
      `message` what was queued from then on, with auxiliary events anywhere among the
      emitted ones. Whatever the interleaving of the stream, both assemblers recover
      exactly the message's final text. */
  lemma Rebuilt(cfg: Config, chunks: seq<seq<RawEvent>>, past: seq<RawEvent>, updates: seq<RawEvent>, final: Message,
                tail: seq<RawEvent>, before: seq<Item>, message: seq<Item>,
                json: Json, s: Delivery.Stream, steps: seq<Delivery.Step>)
    requires Flatten(chunks) == past + (Fidelity.OneMessage(updates, final) + tail)
    requires forall ev | ev in tail :: Fidelity.Trails(MessageText(final), ev)
    requires final.isAssistant && Fidelity.Grows(updates, RawText(final.content)) && MessageText(final) != ""
    requires
      var seen := Batch(cfg, FRESH, past).0.seen;
      MessageText(final) !in seen || PyStrip(Fidelity.LastUpdate(updates)) == MessageText(final)
    requires StreamedOf(before + message) == Chunked(cfg, FRESH, chunks).1
    requires StreamedOf(before) == Batch(cfg, FRESH, past).1 && QuietAside(message)
    requires EventsOf(before) == [] || Assemble.Breaks(EventsOf(before)[|EventsOf(before)| - 1])
    requires Faithful(json, EventsOf(before + message)) && Passing(json, EventsOf(before + message))
    requires s.produced == Gather(Encoder(json), EventsOf(before + message))
    requires Delivery.Reached(s, steps) && s.at.Ended? && s.task.Returned?
    ensures Received(json, s.lines) == EventsOf(before) + EventsOf(message)
    ensures Spoken(EventsOf(message)) == MessageText(final)
    ensures Assemble.LastText(Assemble.Segments(Received(json, s.lines)), PySpace) == MessageText(final)
    ensures Assemble.LastText(Assemble.Segments(Received(json, s.lines)), GoSpace) == MessageText(final)
  {
    var st := Batch(cfg, FRESH, past).0;
    var rest := Fidelity.OneMessage(updates, final) + tail;
    RestSaid(cfg, chunks, past, rest);
    QueuedAfter(before, message, Batch(cfg, FRESH, past).1, After(cfg, st, past, rest).1);
    Fidelity.MessageSaid(cfg, st, past, updates, final);
    Fidelity.TrailedMessageSaid(cfg, st, past, updates, final, tail);
    AsideSaysNothing(message);
    GatherAppend(EventOf, before, message);
    EventsArrive(json, EventsOf(before + message), s, steps);
    PyStripFixed(RawText(final.content));
    Assemble.ReadsBack(EventsOf(before), EventsOf(message), PySpace);
    Assemble.ReadsBack(EventsOf(before), EventsOf(message), GoSpace);
  }
}
