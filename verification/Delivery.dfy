/** The NDJSON turn stream: a producing task, a queue, a consuming generator that
    sends keepalives, and the reader at the other end. */
module Delivery {
  import opened Folds
  import opened Text

  /** An event as one JSON line: its type and the rest. */
  datatype Event = Event(kind: string, body: string)

  const KEEPALIVE := "harness.keepalive"

  /** What the generator yields. */
  datatype Line = Keepalive | Item(event: Event) | Failure(message: string)

  datatype Task = Running | Returned | Raised(message: string)

  /** AtGuard: about to test the loop condition. Waiting: suspended in queue.get
      with a timeout. AfterLoop: about to await the producing task. */
  datatype Place = AtGuard | Waiting | AfterLoop | Ended

  /** `produced` records every event put on the queue, for the statements below. */
  datatype Stream = Stream(task: Task, queue: seq<Event>, lines: seq<Line>, at: Place, produced: seq<Event>)

  const START := Stream(Running, [], [], AtGuard, [])

  /** Put and Finish belong to the producer; the others are the generator's. Timeout may
      fire even when an item has just arrived. */
  datatype Step = Put(event: Event) | Finish(error: Option<string>) | Look | Wake | Timeout | Close

  predicate Enabled(s: Stream, step: Step) {
    match step
    case Put(_) => s.task.Running?
    case Finish(_) => s.task.Running?
    case Look => s.at.AtGuard?
    case Wake => s.at.Waiting? && s.queue != []
    case Timeout => s.at.Waiting?
    case Close => s.at.AfterLoop?
  }

  function Dequeue(s: Stream): Stream
    requires s.queue != []
  {
    s.(queue := s.queue[1..], lines := s.lines + [Item(s.queue[0])], at := AtGuard)
  }

  function Next(s: Stream, step: Step): Stream
    requires Enabled(s, step)
  {
    match step
    case Put(e) => s.(queue := s.queue + [e], produced := s.produced + [e])
    case Finish(None) => s.(task := Returned)
    case Finish(Some(message)) => s.(task := Raised(message))
    case Look =>
      if s.queue != [] then Dequeue(s)
      else if s.task.Running? then s.(at := Waiting)
      else s.(at := AfterLoop)
    case Wake => Dequeue(s)
    case Timeout =>
      s.(at := AtGuard, lines := s.lines + if s.task.Running? then [Keepalive] else [])
    case Close =>
      s.(at := Ended, lines := s.lines + if s.task.Raised? then [Failure(s.task.message)] else [])
  }

  /** Where an interleaving of steps leads; None if one of them was not enabled. */
  function Run(steps: seq<Step>): Option<Stream> {
    if steps == [] then Some(START)
    else
      var before, step := Run(steps[..|steps| - 1]), steps[|steps| - 1];
      if before.Some? && Enabled(before.value, step) then Some(Next(before.value, step)) else None
  }

  predicate Reached(s: Stream, steps: seq<Step>) { Run(steps) == Some(s) }

  function ItemOf(line: Line): seq<Event> { if line.Item? then [line.event] else [] }

  function FailureOf(line: Line): seq<string> { if line.Failure? then [line.message] else [] }

  function Sent(lines: seq<Line>): seq<Event> { Gather(ItemOf, lines) }

  function Failures(lines: seq<Line>): seq<string> { Gather(FailureOf, lines) }

  /** What the producer's failure, if any, puts at the end of the stream. */
  function Outcome(task: Task): seq<string> { if task.Raised? then [task.message] else [] }

  ghost predicate Invariant(s: Stream) {
    && Sent(s.lines) + s.queue == s.produced
    && Failures(s.lines) == (if s.at.Ended? then Outcome(s.task) else [])
    && (s.at.AfterLoop? || s.at.Ended? ==> !s.task.Running? && s.queue == [])
  }

  lemma OneLineMore(lines: seq<Line>, line: Line)
    ensures Sent(lines + [line]) == Sent(lines) + ItemOf(line)
    ensures Failures(lines + [line]) == Failures(lines) + FailureOf(line)
  {
    GatherExtends(ItemOf, lines, line);
    GatherExtends(FailureOf, lines, line);
  }

  lemma StepKeeps(s: Stream, step: Step)
    requires Invariant(s) && Enabled(s, step)
    ensures Invariant(Next(s, step))
  {
    match step
    case Put(e) =>
      assert Sent(s.lines) + (s.queue + [e]) == Sent(s.lines) + s.queue + [e];
    case Finish(_) =>
    case Look =>
      if s.queue != [] { DequeueKeeps(s); }
    case Wake => DequeueKeeps(s);
    case Timeout =>
      if s.task.Running? {
        OneLineMore(s.lines, Keepalive);
      } else {
        assert s.lines + [] == s.lines;
      }
    case Close =>
      if s.task.Raised? {
        OneLineMore(s.lines, Failure(s.task.message));
      } else {
        assert s.lines + [] == s.lines;
      }
  }

  lemma DequeueKeeps(s: Stream)
    requires Invariant(s) && s.queue != [] && (s.at.AtGuard? || s.at.Waiting?)
    ensures Invariant(Dequeue(s))
  {
    OneLineMore(s.lines, Item(s.queue[0]));
    assert Sent(s.lines) + [s.queue[0]] + s.queue[1..] == Sent(s.lines) + s.queue;
  }

  /** Under every interleaving: the event lines so far and the queue are together
      the produced events in order, the generator leaves its loop only with the
      task done and the queue empty, and no failure line comes before that. */
  lemma {:induction false} Safety(s: Stream, steps: seq<Step>)
    requires Reached(s, steps)
    ensures Invariant(s)
    decreases |steps|
  {
    if steps != [] {
      var init := steps[..|steps| - 1];
      Safety(Run(init).value, init);
      StepKeeps(Run(init).value, steps[|steps| - 1]);
    }
  }

  /** The step that ends the stream closes it. */
  lemma EndedByClose(before: Stream, step: Step)
    requires Invariant(before) && Enabled(before, step) && Next(before, step).at.Ended?
    ensures
      var s := Next(before, step);
      s.task.Raised? ==> s.lines != [] && s.lines[|s.lines| - 1] == Failure(s.task.message)
  {
    assert step.Close?;
  }

  /** When the stream has ended it carried every produced event exactly once, in
      order, then one failure line if the producer raised and none otherwise. */
  lemma Delivered(s: Stream, steps: seq<Step>)
    requires Reached(s, steps) && s.at.Ended?
    ensures Sent(s.lines) == s.produced && Failures(s.lines) == Outcome(s.task)
    ensures s.task.Raised? ==> s.lines != [] && s.lines[|s.lines| - 1] == Failure(s.task.message)
  {
    Safety(s, steps);
    assert Sent(s.lines) + [] == Sent(s.lines);
    var n := |steps| - 1;
    Safety(Run(steps[..n]).value, steps[..n]);
    EndedByClose(Run(steps[..n]).value, steps[n]);
  }

  // ---- what the steps come to ---------------------------------------------------

  function PutOf(step: Step): seq<Event> { if step.Put? then [step.event] else [] }

  /** What the producer has put on the queue. */
  function Puts(steps: seq<Step>): seq<Event> { Gather(PutOf, steps) }

  /** How the producer ended, if it did. */
  function Ending(steps: seq<Step>): Task {
    if steps == [] then Running
    else
      var before, step := Ending(steps[..|steps| - 1]), steps[|steps| - 1];
      if before.Running? && step.Finish? then
        match step.error
        case None => Returned
        case Some(message) => Raised(message)
      else before
  }

  /** How often waiting for an event timed out before the producer had ended. */
  function Naps(steps: seq<Step>): nat {
    if steps == [] then 0
    else
      var init, step := steps[..|steps| - 1], steps[|steps| - 1];
      Naps(init) + if step.Timeout? && Ending(init).Running? then 1 else 0
  }

  function KeepaliveOf(line: Line): seq<Line> { if line.Keepalive? then [line] else [] }

  function Keepalives(lines: seq<Line>): nat { |Gather(KeepaliveOf, lines)| }

  /** The producer's events, how it ended, and one keepalive for every nap. */
  ghost predicate Keeps(s: Stream, steps: seq<Step>) {
    s.produced == Puts(steps) && s.task == Ending(steps) && Keepalives(s.lines) == Naps(steps)
  }

  lemma StepPuts(s: Stream, steps: seq<Step>, step: Step)
    requires s.produced == Puts(steps) && Enabled(s, step)
    ensures Next(s, step).produced == Puts(steps + [step])
  {
    GatherExtends(PutOf, steps, step);
    assert Puts(steps) + [] == Puts(steps);
  }

  lemma StepEnds(s: Stream, steps: seq<Step>, step: Step)
    requires s.task == Ending(steps) && Enabled(s, step)
    ensures Next(s, step).task == Ending(steps + [step])
  {
    assert (steps + [step])[..|steps|] == steps;
  }

  lemma KeepaliveMore(lines: seq<Line>, line: Line)
    ensures Keepalives(lines + [line]) == Keepalives(lines) + if line.Keepalive? then 1 else 0
  {
    GatherExtends(KeepaliveOf, lines, line);
  }

  /** Only a wait that times out adds a keepalive. */
  lemma StepNaps(s: Stream, step: Step)
    requires Enabled(s, step)
    ensures Keepalives(Next(s, step).lines) == Keepalives(s.lines) + if step.Timeout? && s.task.Running? then 1 else 0
  {
    match step
    case Timeout => KeepaliveMore(s.lines, Keepalive); assert s.lines + [] == s.lines;
    case Close =>
      assert s.lines + [] == s.lines;
      if s.task.Raised? { KeepaliveMore(s.lines, Failure(s.task.message)); }
    case Look => if s.queue != [] { KeepaliveMore(s.lines, Item(s.queue[0])); }
    case Wake => KeepaliveMore(s.lines, Item(s.queue[0]));
    case _ =>
  }

  lemma StepTells(s: Stream, steps: seq<Step>, step: Step)
    requires Keeps(s, steps) && Enabled(s, step)
    ensures Keeps(Next(s, step), steps + [step])
  {
    StepPuts(s, steps, step);
    StepEnds(s, steps, step);
    StepNaps(s, step);
    assert (steps + [step])[..|steps|] == steps;
  }

  /** In every reachable state, whatever the interleaving. */
  lemma {:induction false} StepsTell(s: Stream, steps: seq<Step>)
    requires Reached(s, steps)
    ensures s.produced == Puts(steps) && s.task == Ending(steps) && Keepalives(s.lines) == Naps(steps)
    decreases |steps|
  {
    if steps != [] {
      var n := |steps| - 1;
      StepsTell(Run(steps[..n]).value, steps[..n]);
      StepTells(Run(steps[..n]).value, steps[..n], steps[n]);
      assert steps == steps[..n] + [steps[n]];
    }
  }

  // ---- progress ---------------------------------------------------------------

  predicate Consumes(step: Step) { step.Look? || step.Wake? || step.Timeout? || step.Close? }

  function Remaining(s: Stream): nat {
    2 * |s.queue| + match s.at
                    case Waiting => 3
                    case AtGuard => 2
                    case AfterLoop => 1
                    case Ended => 0
  }

  /** The generator is never stuck, and once the producer is done each of its steps
      brings the end nearer: at most 2 |queue| + 3 remain. */
  lemma GeneratorEnds(s: Stream)
    ensures s.at.Ended? || exists step :: Consumes(step) && Enabled(s, step)
    ensures forall step | Consumes(step) && Enabled(s, step) && !s.task.Running? ::
      Remaining(Next(s, step)) < Remaining(s) && Next(s, step).task == s.task
  {
    match s.at
    case AtGuard => assert Consumes(Look) && Enabled(s, Look);
    case Waiting => assert Consumes(Timeout) && Enabled(s, Timeout);
    case AfterLoop => assert Consumes(Close) && Enabled(s, Close);
    case Ended =>
  }

  // ---- the reader -------------------------------------------------------------

  /** A scanned line: blank, or some text with the type its JSON declares. */
  datatype Scanned = Blank | Text(event: Event)

  function OnWire(line: Line): Scanned {
    match line
    case Keepalive => Text(Event(KEEPALIVE, ""))
    case Item(e) => Text(e)
    case Failure(message) => Text(FailureEvent(message))
  }

  function FailureEvent(message: string): Event { Event("session.error", message) }

  function Passed(line: Scanned): seq<Event> {
    if line.Blank? || line.event.kind == KEEPALIVE then [] else [line.event]
  }

  /** How reading a stream ends: at its end, with the handler's error for the last
      event handed on, or with the scanner's error. */
  datatype ReadEnd = AllRead | Refused(error: string) | Broken(error: string)

  const TOO_LONG := "bufio.Scanner: token too long"

  /** Which texts the scanner's buffer of 1 MiB takes as one line. */
  type Buffer = Event -> bool

  predicate Scans(fits: Buffer, line: Scanned) { line.Blank? || fits(line.event) }

  /** The lines scanned: those before the first that does not fit. */
  function Scan(fits: Buffer, lines: seq<Scanned>): (scanned: seq<Scanned>)
    ensures scanned <= lines
    ensures scanned == lines <==> forall line | line in lines :: Scans(fits, line)
  {
    if lines == [] then []
    else
      var init, last := lines[..|lines| - 1], lines[|lines| - 1];
      assert lines == init + [last];
      if Scan(fits, init) == init && Scans(fits, last) then lines else Scan(fits, init)
  }

  /** The scanner's own error, after the lines it could scan. */
  function ScanError(fits: Buffer, lines: seq<Scanned>, broken: Option<string>): ReadEnd {
    if Scan(fits, lines) != lines then Broken(TOO_LONG)
    else if broken.Some? then Broken(broken.value)
    else AllRead
  }

  predicate Refuses(handle: Event -> Option<string>, events: seq<Event>) {
    exists e | e in events :: handle(e).Some?
  }

  lemma StillRefuses(handle: Event -> Option<string>, some: seq<Event>, e: Event, all: seq<Event>)
    requires some <= all && some != [] && some[|some| - 1] == e && handle(e).Some?
    ensures Refuses(handle, all)
  {
    assert all[|some| - 1] == e;
  }

  /** RunTurnStream's scan loop over the lines of a stream that ended or broke after
      them: hands on every line but blanks and keepalives, until a line does not fit or
      the handler, which answers with an error or none, refuses one. */
  method ReadStream(lines: seq<Scanned>, fits: Buffer, handle: Event -> Option<string>, broken: Option<string>)
    returns (handed: seq<Event>, end: ReadEnd)
    ensures handed <= Gather(Passed, Scan(fits, lines))
    ensures forall i | 0 <= i < |handed| - 1 :: handle(handed[i]).None?
    ensures end.Refused? <==> Refuses(handle, Gather(Passed, Scan(fits, lines)))
    ensures end.Refused? ==> handed != [] && handle(handed[|handed| - 1]) == Some(end.error)
    ensures !end.Refused? ==> handed == Gather(Passed, Scan(fits, lines)) && end == ScanError(fits, lines, broken)
  {
    handed := [];
    var i := 0;
    while i < |lines| && Scans(fits, lines[i])
      invariant 0 <= i <= |lines| && Scan(fits, lines[..i]) == lines[..i]
      invariant handed == Gather(Passed, lines[..i])
      invariant !Refuses(handle, handed)
    {
      GatherExtends(Passed, lines[..i], lines[i]);
      assert lines[..i + 1] == lines[..i] + [lines[i]];
      var line := lines[i];
      i := i + 1;
      if line.Blank? {
        continue;
      }
      if line.event.kind == KEEPALIVE {
        continue;
      }
      handed := handed + [line.event];
      var error := handle(line.event);
      if error.Some? {
        HandedOn(fits, lines, i);
        StillRefuses(handle, handed, line.event, Gather(Passed, Scan(fits, lines)));
        return handed, Refused(error.value);
      }
    }
    ScanStops(fits, lines, i);
    end := if i < |lines| then Broken(TOO_LONG) else if broken.Some? then Broken(broken.value) else AllRead;
  }

  lemma {:induction false} ScanMore(fits: Buffer, lines: seq<Scanned>, n: nat)
    requires n <= |lines| && Scan(fits, lines[..n]) == lines[..n]
    ensures lines[..n] <= Scan(fits, lines)
  {
    if n == |lines| {
      assert lines[..n] == lines;
    } else {
      var init := lines[..|lines| - 1];
      assert init[..n] == lines[..n];
      ScanMore(fits, init, n);
    }
  }

  lemma HandedOn(fits: Buffer, lines: seq<Scanned>, n: nat)
    requires n <= |lines| && Scan(fits, lines[..n]) == lines[..n]
    ensures Gather(Passed, lines[..n]) <= Gather(Passed, Scan(fits, lines))
  {
    ScanMore(fits, lines, n);
    GatherAppend(Passed, lines[..n], Scan(fits, lines)[n..]);
    assert Scan(fits, lines) == lines[..n] + Scan(fits, lines)[n..];
  }

  /** The first line that does not fit is where scanning stops. */
  lemma {:induction false} ScanStops(fits: Buffer, lines: seq<Scanned>, n: nat)
    requires n <= |lines| && Scan(fits, lines[..n]) == lines[..n]
    requires n < |lines| ==> !Scans(fits, lines[n])
    ensures Scan(fits, lines) == lines[..n]
  {
    if n == |lines| {
      assert lines[..n] == lines;
    } else {
      var init := lines[..|lines| - 1];
      assert init[..n] == lines[..n];
      ScanStops(fits, init, n);
    }
  }

  // ---- end to end -------------------------------------------------------------

  /** The stream as bytes: one line for each line sent. */
  function Wired(lines: seq<Line>): seq<Scanned> {
    seq(|lines|, i requires 0 <= i < |lines| => OnWire(lines[i]))
  }

  /** What a reader that refuses nothing hands on. */
  function Read(fits: Buffer, lines: seq<Line>): seq<Event> { Gather(Passed, Scan(fits, Wired(lines))) }

  /** Everything sent that is no keepalive of the generator's own. */
  function Content(lines: seq<Line>): seq<Event> { Gather(ContentOf, lines) }

  function ContentOf(line: Line): seq<Event> {
    match line
    case Keepalive => []
    case Item(e) => [e]
    case Failure(message) => [FailureEvent(message)]
  }

  /** The produced events, and the failure if the producer raised. */
  function Meant(s: Stream): seq<Event> {
    s.produced + if s.task.Raised? then [Event("session.error", s.task.message)] else []
  }

  lemma {:induction false} NoFailures(lines: seq<Line>)
    requires Failures(lines) == []
    ensures Content(lines) == Sent(lines)
  {
    if lines != [] {
      var init, line := lines[..|lines| - 1], lines[|lines| - 1];
      assert lines == init + [line];
      OneLineMore(init, line);
      NoFailures(init);
      GatherExtends(ContentOf, init, line);
    }
  }

  lemma ContentIs(s: Stream, steps: seq<Step>)
    requires Reached(s, steps) && s.at.Ended?
    ensures Content(s.lines) == Meant(s)
  {
    Delivered(s, steps);
    if s.task.Raised? {
      var init, last := s.lines[..|s.lines| - 1], s.lines[|s.lines| - 1];
      assert s.lines == init + [last];
      OneLineMore(init, last);
      assert Failures(init) + [s.task.message] == [s.task.message];
      assert Sent(init) + [] == Sent(init);
      NoFailures(init);
      GatherExtends(ContentOf, init, last);
    } else {
      NoFailures(s.lines);
      assert s.produced + [] == s.produced;
    }
  }

  /** Each line fits, and carries no keepalive but the generator's own. */
  predicate AllPass(fits: Buffer, events: seq<Event>) {
    forall e | e in events :: fits(e) && e.kind != "harness.keepalive"
  }

  /** No more was read than sent, and as much as was sent exactly when every line fits
      and none calls itself a keepalive. */
  ghost predicate Tallies(fits: Buffer, read: seq<Event>, sent: seq<Event>, scanned: bool) {
    && |read| <= |sent| && (|read| == |sent| <==> AllPass(fits, sent)) && (AllPass(fits, sent) ==> read == sent)
    && (forall e | e in read :: e in sent) && (!scanned ==> |read| < |sent|)
  }

  lemma TalliesOn(fits: Buffer, read: seq<Event>, sent: seq<Event>, e: Event, scanned: bool)
    requires Tallies(fits, read, sent, scanned)
    ensures
      var taken := scanned && fits(e);
      Tallies(fits, if taken && e.kind != KEEPALIVE then read + [e] else read, sent + [e], taken)
  {
    assert AllPass(fits, sent + [e]) <==> AllPass(fits, sent) && fits(e) && e.kind != KEEPALIVE by {
      assert (sent + [e])[|sent|] == e;
      assert forall x | x in sent :: x in sent + [e];
    }
  }

  lemma TalliesLine(fits: Buffer, read: seq<Event>, sent: seq<Event>, line: Line, scanned: bool)
    requires Tallies(fits, read, sent, scanned) && fits(Event(KEEPALIVE, ""))
    ensures
      var taken := scanned && Scans(fits, OnWire(line));
      Tallies(fits, read + if taken then Passed(OnWire(line)) else [], sent + ContentOf(line), taken)
  {
    assert read + [] == read;
    if line.Keepalive? {
      assert sent + [] == sent;
    } else {
      TalliesOn(fits, read, sent, OnWire(line).event, scanned);
    }
  }

  lemma {:induction false} ReadsLess(fits: Buffer, lines: seq<Line>)
    requires fits(Event(KEEPALIVE, ""))
    ensures Tallies(fits, Read(fits, lines), Content(lines), Scan(fits, Wired(lines)) == Wired(lines))
  {
    if lines != [] {
      var init, line := lines[..|lines| - 1], lines[|lines| - 1];
      ReadsLess(fits, init);
      OneMoreLine(fits, init, line);
      assert lines == init + [line];
      TalliesLine(fits, Read(fits, init), Content(init), line, Scan(fits, Wired(init)) == Wired(init));
    }
  }

  /** What one more line adds to what is sent and to what is read. */
  lemma OneMoreLine(fits: Buffer, init: seq<Line>, line: Line)
    ensures Content(init + [line]) == Content(init) + ContentOf(line)
    ensures
      var scanned := Scan(fits, Wired(init)) == Wired(init) && Scans(fits, OnWire(line));
      && (scanned <==> Scan(fits, Wired(init + [line])) == Wired(init + [line]))
      && Read(fits, init + [line]) == Read(fits, init) + if scanned then Passed(OnWire(line)) else []
  {
    var lines := init + [line];
    GatherExtends(ContentOf, init, line);
    assert Wired(lines)[..|init|] == Wired(init) && Wired(lines) == Wired(init) + [OnWire(line)];
    if Scan(fits, Wired(init)) == Wired(init) && Scans(fits, OnWire(line)) {
      GatherExtends(Passed, Wired(init), OnWire(line));
    } else {
      assert Read(fits, init) + [] == Read(fits, init);
    }
  }

  /** End to end: the reader hands on exactly the produced events, plus the failure if
      there was one, if and only if each of their lines fits the scanner's buffer and none
      calls itself a keepalive; and it never hands on anything else. */
  lemma ReaderGetsAll(fits: Buffer, s: Stream, steps: seq<Step>)
    requires Reached(s, steps) && s.at.Ended? && fits(Event(KEEPALIVE, ""))
    ensures Read(fits, s.lines) == Meant(s) <==> AllPass(fits, Meant(s))
    ensures |Read(fits, s.lines)| == |Meant(s)| <==> AllPass(fits, Meant(s))
    ensures forall e | e in Read(fits, s.lines) :: e in Meant(s)
  {
    ContentIs(s, steps);
    ReadsLess(fits, s.lines);
  }
}
