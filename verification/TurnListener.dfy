/** The turn's event listener and queue drainer, and why cutting the raw event
    list into chunks changes nothing. */
module TurnListener {
  import opened Folds
  import opened Text
  import opened Wire
  import opened Emit

  function Flatten(chunks: seq<seq<RawEvent>>): seq<RawEvent> {
    if chunks == [] then [] else Flatten(chunks[..|chunks| - 1]) + chunks[|chunks| - 1]
  }

  /** The emitter called once per chunk, with the buffer collected so far as its
      lookup list and its trackers kept between calls. */
  function Chunked(cfg: Config, st: State, chunks: seq<seq<RawEvent>>): (State, Output) {
    if chunks == [] then (st, [])
    else
      var chunk := chunks[|chunks| - 1];
      var before := Flatten(chunks[..|chunks| - 1]);
      var (s, out) := Chunked(cfg, st, chunks[..|chunks| - 1]);
      var (s', more) := After(cfg, s, before, chunk);
      (s', out + more)
  }

  /** Batches compose: the second half runs with the first half as its past. */
  lemma BatchSplits(cfg: Config, st: State, a: seq<RawEvent>, b: seq<RawEvent>)
    ensures
      var (s, out) := Batch(cfg, st, a);
      var (s', more) := After(cfg, s, a, b);
      Batch(cfg, st, a + b) == (s', out + more)
  {
    AfterSplits(cfg, st, [], a, b);
    assert [] + a == a && [] + (a + b) == a + b;
  }

  /** However the raw events are cut, the emitter says the same. */
  lemma {:induction false} ChunkedIsBatch(cfg: Config, st: State, chunks: seq<seq<RawEvent>>)
    ensures Chunked(cfg, st, chunks) == Batch(cfg, st, Flatten(chunks))
  {
    if chunks != [] {
      var n := |chunks| - 1;
      ChunkedIsBatch(cfg, st, chunks[..n]);
      BatchSplits(cfg, st, Flatten(chunks[..n]), chunks[n]);
    }
  }

  // ---- the listener and its queue ----------------------------------------

  /** A queue entry, tagged by who put it there; Sentinel is the closing None. */
  datatype Item = Streamed(event: WireEvent) | Auxiliary(event: WireEvent) | Sentinel

  function Tag(events: Output): seq<Item> {
    seq(|events|, i requires 0 <= i < |events| => Streamed(events[i]))
  }

  function EventOf(item: Item): Output { if item.Sentinel? then [] else [item.event] }

  function StreamedBy(item: Item): Output { if item.Streamed? then [item.event] else [] }

  function EventsOf(items: seq<Item>): Output { Gather(EventOf, items) }

  function StreamedOf(items: seq<Item>): Output { Gather(StreamedBy, items) }

  lemma {:induction false} StreamedTag(items: seq<Item>, events: Output)
    ensures StreamedOf(items + Tag(events)) == StreamedOf(items) + events
    decreases |events|
  {
    GatherAppend(StreamedBy, items, Tag(events));
    if events != [] {
      var n := |events| - 1;
      StreamedTag([], events[..n]);
      assert [] + Tag(events[..n]) == Tag(events[..n]);
      GatherExtends(StreamedBy, Tag(events[..n]), Streamed(events[n]));
      assert Tag(events) == Tag(events[..n]) + [Streamed(events[n])];
    }
  }

  class Listener {
    const emitter: Emitter
    var buffer: seq<RawEvent>
    var rawCursor: nat
    var queue: seq<Item>
    var omaEvents: Output
    ghost var drained: seq<Item>

    /** Everything ever put on the queue, in order. */
    ghost function Put(): seq<Item>
      reads `drained, `queue
    {
      drained + queue
    }

    /** The turn's events are the drained items, and what the listener put is what
        one emitter call over the whole buffer would say. */
    ghost predicate Valid()
      reads this, emitter
    {
      var (st, said) := Batch(emitter.cfg, FRESH, buffer);
      && omaEvents == EventsOf(drained)
      && rawCursor == |buffer| && emitter.Value() == st && StreamedOf(Put()) == said
    }

    constructor (cfg: Config)
      ensures Valid() && fresh(emitter) && emitter.cfg == cfg
      ensures buffer == [] && Put() == []
    {
      emitter := new Emitter(cfg);
      buffer, rawCursor, queue, omaEvents, drained := [], 0, [], [], [];
    }

    /** None stands for an event that is neither typed nor a dict: not collected. */
    method OnEvent(event: Option<RawEvent>) returns (ghost delta: Output)
      requires Valid()
      modifies `buffer, `rawCursor, `queue, emitter
      ensures Valid()
      ensures buffer == old(buffer) + if event.Some? then [event.value] else []
      ensures Put() == old(Put()) + Tag(delta)
    {
      if event.Some? {
        buffer := buffer + [event.value];
      }
      var chunk := buffer[rawCursor..];
      BatchSplits(emitter.cfg, FRESH, old(buffer), chunk);
      assert buffer == old(buffer) + chunk;
      LooseRunIsRun(emitter.cfg, emitter.Value(), buffer, |buffer| - |chunk|, chunk);
      var events := emitter.Emit(chunk, Some(buffer));
      delta := events;
      rawCursor := |buffer|;
      StreamedTag(Put(), events);
      assert drained + (queue + Tag(events)) == Put() + Tag(events);
      queue := queue + Tag(events);
    }

    /** A tool putting an event on the queue beside the listener. */
    method EmitAux(event: WireEvent)
      requires Valid()
      modifies `queue
      ensures Valid()
      ensures Put() == old(Put()) + [Auxiliary(event)]
    {
      GatherExtends(StreamedBy, Put(), Auxiliary(event));
      queue := queue + [Auxiliary(event)];
      assert Put() == old(Put()) + [Auxiliary(event)];
    }

    method CloseQueue()
      requires Valid()
      modifies `queue
      ensures Valid()
      ensures Put() == old(Put()) + [Sentinel]
    {
      GatherExtends(StreamedBy, Put(), Sentinel);
      queue := queue + [Sentinel];
      assert Put() == old(Put()) + [Sentinel];
    }

    /** await queue.get() when something is queued. */
    method Get() returns (item: Item)
      requires queue != []
      modifies `queue, `drained
      ensures item == old(queue)[0] && queue == old(queue)[1..]
      ensures drained == old(drained) + [item]
    {
      item := queue[0];
      queue := queue[1..];
      drained := drained + [item];
    }

    /** The drainer, through the first sentinel or until it must wait for more. */
    method DrainEvents() returns (closed: bool)
      requires omaEvents == EventsOf(drained)
      modifies `queue, `omaEvents, `drained
      ensures omaEvents == EventsOf(drained)
      ensures queue == AfterSentinel(old(queue)) && Put() == old(Put())
      ensures closed <==> Sentinel in old(queue)
    {
      while queue != []
        invariant omaEvents == EventsOf(drained) && Put() == old(Put())
        invariant AfterSentinel(queue) == AfterSentinel(old(queue))
        invariant Sentinel in queue <==> Sentinel in old(queue)
        decreases |queue|
      {
        Dequeued(drained, queue);
        var item := Get();
        if item.Sentinel? {
          return true;
        }
        omaEvents := omaEvents + [item.event];
      }
      return false;
    }
  }

  lemma Dequeued(drained: seq<Item>, queue: seq<Item>)
    requires queue != []
    ensures drained + [queue[0]] + queue[1..] == drained + queue
    ensures EventsOf(drained + [queue[0]]) == EventsOf(drained) + EventOf(queue[0])
    ensures Sentinel in queue <==> queue[0].Sentinel? || Sentinel in queue[1..]
  {
    GatherExtends(EventOf, drained, queue[0]);
  }

  /** What a drainer leaves on the queue. */
  function AfterSentinel(queue: seq<Item>): seq<Item> {
    if queue == [] then []
    else if queue[0].Sentinel? then queue[1..]
    else AfterSentinel(queue[1..])
  }

  /** Up to the first sentinel and with it; all, if there is none. */
  lemma {:induction false} LeavesTheRest(before: seq<Item>, rest: seq<Item>)
    requires Sentinel !in before
    ensures AfterSentinel(before + [Sentinel] + rest) == rest && AfterSentinel(before) == []
  {
    var all := before + [Sentinel] + rest;
    if before == [] {
      assert all[1..] == rest;
    } else {
      LeavesTheRest(before[1..], rest);
      assert all[1..] == before[1..] + [Sentinel] + rest;
    }
  }
}
