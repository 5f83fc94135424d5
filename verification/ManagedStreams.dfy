/** Vendor event streams (Hermes runs, OpenClaw responses) mapped to session events. */
module ManagedStreams {
  import opened Folds
  import opened Text
  import opened Assemble

  datatype Usage = Usage(input: int, output: int, cached: int)

  datatype Out =
    | UseTool(name: string, preview: string)
    | ToolDone(name: string, text: string)
    | Say(text: string)
    | Span(usage: Option<Usage>)

  /** What one line of either stream asks for. */
  datatype Op =
    | Skip
    | Stop
    | Tools(outs: seq<Out>)
    | Delta(text: string)
    | Complete(text: string, usage: Option<Usage>)
    | Fail(error: string)

  datatype End = Ok(usage: Option<Usage>) | Err(error: string)

  // ---- who receives the events --------------------------------------------------------

  /** Collected into a slice, or handed to a callback whose n-th call may refuse. */
  datatype Handler = Collect | Callback(refuses: nat -> Option<string>)

  function Refusal(h: Handler, n: nat): Option<string> {
    if h.Collect? then None else h.refuses(n)
  }

  ghost predicate Accepts(h: Handler, n: nat) {
    forall k: nat | k < n :: Refusal(h, k).None?
  }

  /** Everything the stream produces when nobody refuses, and how it ends. */
  datatype Ideal = Ideal(outs: seq<Out>, end: End)

  /** The receiver got all of it, or all up to the event it refused. */
  ghost predicate Delivered(h: Handler, got: seq<Out>, end: End, ideal: Ideal) {
    if Accepts(h, |ideal.outs|) then got == ideal.outs && end == ideal.end
    else
      && 0 < |got| <= |ideal.outs| && got == ideal.outs[..|got|]
      && Accepts(h, |got| - 1) && end.Err? && Refusal(h, |got| - 1) == Some(end.error)
  }

  // ---- the mapping ------------------------------------------------------------------------

  datatype Status = Going | Stopped | Failed(error: string)

  datatype State = State(said: string, emitted: bool, usage: Option<Usage>, outs: seq<Out>, status: Status)

  const FRESH := State("", false, None, [], Going)

  function Step(st: State, op: Op): State {
    if !st.status.Going? then st
    else
      match op
      case Skip => st
      case Stop => st.(status := Stopped)
      case Tools(outs) => st.(outs := st.outs + outs)
      case Delta(text) =>
        if text == "" then st
        else st.(said := st.said + text, emitted := true, outs := st.outs + [Say(st.said + text)])
      case Complete(text, usage) =>
        var st' := if usage.Some? then st.(usage := usage) else st;
        if st.emitted || text == "" then st' else st'.(emitted := true, outs := st.outs + [Say(text)])
      case Fail(error) => st.(status := Failed(error))
  }

  function After(ops: seq<Op>): State {
    if ops == [] then FRESH else Step(After(ops[..|ops| - 1]), ops[|ops| - 1])
  }

  /** The tail of a stream; `readError` is what the scanner reports after the loop, however
      that ended: an error may be on record by the time "[DONE]" is read. */
  function Finish(st: State, readError: Option<string>): Ideal {
    if st.status.Failed? then Ideal(st.outs, Err(st.status.error))
    else if readError.Some? then Ideal(st.outs, Err(readError.value))
    else
      Ideal(st.outs + (if st.emitted then [] else [Say("")]) + [Span(st.usage)], Ok(st.usage))
  }

  function Worded(vendor: string, readError: Option<string>): Option<string> {
    if readError.None? then None else Some(vendor + " stream read: " + readError.value)
  }

  function Run(ops: seq<Op>, readError: Option<string>): Ideal { Finish(After(ops), readError) }

  lemma {:induction false} OutsGrow(ops: seq<Op>, n: nat)
    requires n <= |ops|
    ensures After(ops[..n]).outs <= After(ops).outs
    ensures !After(ops[..n]).status.Going? ==> After(ops) == After(ops[..n])
  {
    if n == |ops| {
      assert ops[..n] == ops;
    } else {
      OutsGrow(ops[..|ops| - 1], n);
      assert ops[..|ops| - 1][..n] == ops[..n];
    }
  }

  /** Nothing handed on up to line n is ever taken back. */
  lemma RunStarts(ops: seq<Op>, n: nat, readError: Option<string>)
    requires n <= |ops|
    ensures After(ops[..n]).outs <= Run(ops, readError).outs
    ensures !After(ops[..n]).status.Going? ==> Run(ops, readError) == Finish(After(ops[..n]), readError)
  {
    OutsGrow(ops, n);
    assert After(ops).outs <= Run(ops, readError).outs;
  }

  // ---- the two vendors ----------------------------------------------------------------------

  datatype HermesEvent =
    | ToolStarted(tool: string, preview: string)
    | ToolCompleted(tool: string, seconds: string, failed: bool)
    | MessageDelta(delta: string)
    | RunCompleted(output: string, usage: Option<Usage>)
    | RunFailed(reason: string, text: string)
    | OtherRunEvent

  /** A scanned line: blank, a comment or not decodable; "[DONE]"; or an event. */
  datatype Line<E> = Noise | DoneMark | Data(event: E)

  function HermesOp(line: Line<HermesEvent>): Op {
    match line
    case Noise => Skip
    case DoneMark => Stop
    case Data(ToolStarted(tool, preview)) => Tools([UseTool(tool, preview)])
    case Data(ToolCompleted(tool, seconds, failed)) =>
      Tools([ToolDone(tool, if failed then "(failed)" else "(completed in " + seconds + "s)")])
    case Data(MessageDelta(delta)) => Delta(delta)
    case Data(RunCompleted(output, usage)) => Complete(output, usage)
    case Data(RunFailed(reason, text)) =>
      Fail("hermes run failed: " + if reason != "" then reason else if text != "" then text else "run failed")
    case Data(OtherRunEvent) => Skip
  }

  function HermesOps(lines: seq<Line<HermesEvent>>): seq<Op> {
    seq(|lines|, i requires 0 <= i < |lines| => HermesOp(lines[i]))
  }

  datatype Part = Part(isOutputText: bool, text: string)

  datatype Item = Message(content: seq<Part>) | FunctionCall(name: string, arguments: string) | OtherItem

  datatype Response = Response(output: seq<Item>, usage: Option<Usage>, error: Option<string>)

  datatype ClawEvent =
    | ItemAdded(item: Option<Item>)
    | ItemDone(item: Option<Item>)
    | TextDelta(delta: string)
    | Completed(response: Option<Response>)
    | ResponseFailed(response: Option<Response>, message: string)
    | Lifecycle

  function PartText(p: Part): string { if p.isOutputText then p.text else "" }

  function ItemText(item: Item): string {
    if item.Message? then Gather(PartText, item.content) else ""
  }

  function OutputText(items: seq<Item>): string { Gather(ItemText, items) }

  /** Arguments of the function call added last and not done yet. */
  function Preview(lines: seq<Line<ClawEvent>>): string {
    if lines == [] then ""
    else
      match lines[|lines| - 1]
      case Data(ItemAdded(Some(FunctionCall(_, arguments)))) => arguments
      case Data(ItemDone(Some(FunctionCall(_, _)))) => ""
      case _ => Preview(lines[..|lines| - 1])
  }

  function ClawOp(preview: string, line: Line<ClawEvent>): Op {
    match line
    case Noise => Skip
    case DoneMark => Stop
    case Data(ItemDone(Some(FunctionCall(name, arguments)))) =>
      Tools([UseTool(name, if arguments != "" then arguments else preview), ToolDone(name, "(completed)")])
    case Data(TextDelta(delta)) => Delta(delta)
    case Data(Completed(None)) => Complete("", None)
    case Data(Completed(Some(r))) => Complete(OutputText(r.output), r.usage)
    case Data(ResponseFailed(r, message)) =>
      var own := if r.Some? && r.value.error.Some? then r.value.error.value else "";
      Fail("openclaw: " + if own != "" then own else if message != "" then message else "response failed")
    case Data(_) => Skip
  }

  /** The op of the n-th line. */
  function ClawOpAt(lines: seq<Line<ClawEvent>>, n: nat): Op
    requires n < |lines|
  {
    ClawOp(Preview(lines[..n]), lines[n])
  }

  function ClawOps(lines: seq<Line<ClawEvent>>): seq<Op> {
    seq(|lines|, i requires 0 <= i < |lines| => ClawOpAt(lines, i))
  }

  method AssembleOutputText(items: seq<Item>) returns (text: string)
    ensures text == OutputText(items)
  {
    text := "";
    for i := 0 to |items|
      invariant text == Gather(ItemText, items[..i])
    {
      assert items[..i + 1][..i] == items[..i];
      if !items[i].Message? {
        assert text + [] == text;
        continue;
      }
      var own := "";
      for k := 0 to |items[i].content|
        invariant own == Gather(PartText, items[i].content[..k])
      {
        assert items[i].content[..k + 1][..k] == items[i].content[..k];
        var part := items[i].content[k];
        if part.isOutputText && part.text != "" {
          own := own + part.text;
        } else {
          assert own + [] == own;
        }
      }
      assert items[i].content[..|items[i].content|] == items[i].content;
      text := text + own;
    }
    assert items[..|items|] == items;
  }

  // ---- the loops --------------------------------------------------------------------------

  lemma NextState(ops: seq<Op>, n: nat)
    requires n < |ops|
    ensures After(ops[..n + 1]) == Step(After(ops[..n]), ops[n])
  {
    assert ops[..n + 1][..n] == ops[..n];
  }

  /** What a line leads to: the next line, the tail, or an error. */
  datatype Next = Continue | Break | Return(error: string)

  class Turn {
    const handler: Handler
    var got: seq<Out>
    var accumulated: string
    var emittedContent: bool
    var finalUsage: Option<Usage>

    constructor (handler: Handler)
      ensures this.handler == handler && At(FRESH)
    {
      this.handler, got := handler, [];
      accumulated, emittedContent, finalUsage := "", false, None;
    }

    /** The variables are those of the state, and nothing was refused so far. */
    ghost predicate At(st: State)
      reads this
    {
      && got == st.outs && accumulated == st.said && emittedContent == st.emitted && finalUsage == st.usage
      && Accepts(handler, |got|)
    }

    /** The last event handed on was refused. */
    ghost predicate RefusedIn(outs: seq<Out>, error: string)
      reads this
    {
      got != [] && got <= outs && Accepts(handler, |got| - 1) && Refusal(handler, |got| - 1) == Some(error)
    }

    ghost predicate Moved(st: State, error: Option<string>)
      reads this
    {
      if error.None? then At(st) else RefusedIn(st.outs, error.value)
    }

    ghost predicate Went(st: State, next: Next)
      reads this
    {
      match next
      case Continue => st.status.Going? && At(st)
      case Break => st.status.Stopped? && At(st)
      case Return(error) => if st.status.Failed? then At(st) && st.status.error == error else RefusedIn(st.outs, error)
    }

    method Emit(ev: Out) returns (error: Option<string>)
      modifies `got
      ensures got == old(got) + [ev] && error == Refusal(handler, |old(got)|)
    {
      var n := |got|;
      got := got + [ev];
      return if handler.Collect? then None else handler.refuses(n);
    }

    method OnTool(ev: Out, ghost st: State) returns (error: Option<string>)
      requires At(st) && st.status.Going?
      modifies this
      ensures Moved(Step(st, Tools([ev])), error)
    {
      error := Emit(ev);
    }

    method OnFunctionCall(name: string, preview: string, ghost st: State) returns (error: Option<string>)
      requires At(st) && st.status.Going?
      modifies this
      ensures Moved(Step(st, Tools([UseTool(name, preview), ToolDone(name, "(completed)")])), error)
    {
      ghost var first := UseTool(name, preview);
      ghost var second := ToolDone(name, "(completed)");
      assert st.outs + [first, second] == st.outs + [first] + [second];
      error := Emit(UseTool(name, preview));
      if error.Some? {
        return;
      }
      error := Emit(ToolDone(name, "(completed)"));
    }

    method OnDelta(delta: string, ghost st: State) returns (error: Option<string>)
      requires At(st) && st.status.Going?
      modifies this
      ensures Moved(Step(st, Delta(delta)), error)
    {
      if delta == "" {
        return None;
      }
      accumulated := accumulated + delta;
      error := Emit(Say(accumulated));
      emittedContent := true;
    }

    method OnCompleted(text: string, usage: Option<Usage>, ghost st: State) returns (error: Option<string>)
      requires At(st) && st.status.Going?
      modifies this
      ensures Moved(Step(st, Complete(text, usage)), error)
    {
      error := None;
      if usage.Some? {
        finalUsage := usage;
      }
      if !emittedContent && text != "" {
        error := Emit(Say(text));
        emittedContent := true;
      }
    }

    /** After the last line: at least one message, and the usage span. */
    method Tail(readError: Option<string>, ghost st: State) returns (end: End)
      requires At(st) && !st.status.Failed?
      modifies this
      ensures Delivered(handler, got, end, Finish(st, readError))
    {
      if readError.Some? {
        return Err(readError.value);
      }
      ghost var ideal := Finish(st, readError);
      if !emittedContent {
        var refused := Emit(Say(""));
        if refused.Some? {
          return Err(refused.value);
        }
      }
      var refused := Emit(Span(finalUsage));
      assert got == ideal.outs;
      if refused.Some? {
        return Err(refused.value);
      }
      return Ok(finalUsage);
    }

    method HermesLine(line: Line<HermesEvent>, ghost st: State) returns (next: Next)
      requires At(st) && st.status.Going?
      modifies this
      ensures Went(Step(st, HermesOp(line)), next)
    {
      var error: Option<string> := None;
      match line {
        case Noise => return Continue;
        case DoneMark => return Break;
        case Data(ToolStarted(tool, preview)) =>
          error := OnTool(UseTool(tool, preview), st);
        case Data(ToolCompleted(tool, seconds, failed)) =>
          var content := "(completed in " + seconds + "s)";
          if failed {
            content := "(failed)";
          }
          error := OnTool(ToolDone(tool, content), st);
        case Data(MessageDelta(delta)) =>
          error := OnDelta(delta, st);
        case Data(RunCompleted(output, usage)) =>
          error := OnCompleted(output, usage, st);
        case Data(RunFailed(reason, text)) =>
          var msg := reason;
          if msg == "" {
            msg := text;
          }
          if msg == "" {
            msg := "run failed";
          }
          return Return("hermes run failed: " + msg);
        case Data(OtherRunEvent) =>
      }
      return if error.Some? then Return(error.value) else Continue;
    }

    method ClawLine(line: Line<ClawEvent>, functionCallPreview: string, ghost st: State) returns (next: Next)
      requires At(st) && st.status.Going?
      modifies this
      ensures Went(Step(st, ClawOp(functionCallPreview, line)), next)
    {
      var error: Option<string> := None;
      match line {
        case Noise => return Continue;
        case DoneMark => return Break;
        case Data(ItemDone(Some(FunctionCall(name, arguments)))) =>
          var preview := arguments;
          if preview == "" {
            preview := functionCallPreview;
          }
          error := OnFunctionCall(name, preview, st);
        case Data(TextDelta(delta)) =>
          error := OnDelta(delta, st);
        case Data(Completed(response)) =>
          if response.None? {
            error := OnCompleted("", None, st);
          } else {
            var text := AssembleOutputText(response.value.output);
            error := OnCompleted(text, response.value.usage, st);
          }
        case Data(ResponseFailed(response, message)) =>
          var msg := "";
          if response.Some? && response.value.error.Some? {
            msg := response.value.error.value;
          }
          if msg == "" {
            msg := message;
          }
          if msg == "" {
            msg := "response failed";
          }
          return Return("openclaw: " + msg);
        case Data(_) =>
      }
      return if error.Some? then Return(error.value) else Continue;
    }
  }

  /** A line that ends the stream ends it the same way whatever follows. */
  lemma EndsAt(turn: Turn, ops: seq<Op>, n: nat, readError: Option<string>, next: Next)
    requires n < |ops| && After(ops[..n]).status.Going?
    requires turn.Went(Step(After(ops[..n]), ops[n]), next)
    ensures next.Return? ==> Delivered(turn.handler, turn.got, Err(next.error), Run(ops, readError))
    ensures next.Break? ==> Run(ops, readError) == Finish(After(ops[..n + 1]), readError)
  {
    NextState(ops, n);
    RunStarts(ops, n + 1, readError);
  }

  /** The mapping loop and tail of doRun. */
  method DoRun(lines: seq<Line<HermesEvent>>, readError: Option<string>, handler: Handler)
    returns (got: seq<Out>, end: End)
    ensures Delivered(handler, got, end, Run(HermesOps(lines), Worded("hermes", readError)))
    ensures end.Ok? ==> WellSaid(got, end.usage, HermesOps(lines))
  {
    var turn := new Turn(handler);
    ghost var ops := HermesOps(lines);
    HermesTurns(lines, Worded("hermes", readError));
    var worded := Worded("hermes", readError);
    for i := 0 to |lines|
      invariant turn.handler == handler && turn.At(After(ops[..i])) && After(ops[..i]).status.Going?
    {
      NextState(ops, i);
      var next := turn.HermesLine(lines[i], After(ops[..i]));
      EndsAt(turn, ops, i, worded, next);
      match next {
        case Continue =>
        case Return(error) => return turn.got, Err(error);
        case Break =>
          end := turn.Tail(worded, After(ops[..i + 1]));
          return turn.got, end;
      }
    }
    assert ops[..|lines|] == ops;
    end := turn.Tail(worded, After(ops));
    got := turn.got;
  }

  /** The mapping loop and tail of doResponse. */
  method DoResponse(lines: seq<Line<ClawEvent>>, readError: Option<string>, handler: Handler)
    returns (got: seq<Out>, end: End)
    ensures Delivered(handler, got, end, Run(ClawOps(lines), Worded("openclaw", readError)))
    ensures end.Ok? ==> WellSaid(got, end.usage, ClawOps(lines))
  {
    var turn := new Turn(handler);
    var functionCallPreview := "";
    ghost var ops := ClawOps(lines);
    ClawTurns(lines, Worded("openclaw", readError));
    var worded := Worded("openclaw", readError);
    for i := 0 to |lines|
      invariant turn.handler == handler && turn.At(After(ops[..i])) && After(ops[..i]).status.Going?
      invariant functionCallPreview == Preview(lines[..i])
    {
      NextState(ops, i);
      var next := turn.ClawLine(lines[i], functionCallPreview, After(ops[..i]));
      EndsAt(turn, ops, i, worded, next);
      match next {
        case Continue =>
        case Return(error) => return turn.got, Err(error);
        case Break =>
          end := turn.Tail(worded, After(ops[..i + 1]));
          return turn.got, end;
      }
      PreviewNext(lines, i);
      match lines[i] {
        case Data(ItemAdded(Some(FunctionCall(_, arguments)))) => functionCallPreview := arguments;
        case Data(ItemDone(Some(FunctionCall(_, _)))) => functionCallPreview := "";
        case _ =>
      }
    }
    assert ops[..|lines|] == ops;
    end := turn.Tail(worded, After(ops));
    got := turn.got;
  }

  lemma PreviewNext(lines: seq<Line<ClawEvent>>, n: nat)
    requires n < |lines|
    ensures Preview(lines[..n + 1])
         == match lines[n]
            case Data(ItemAdded(Some(FunctionCall(_, arguments)))) => arguments
            case Data(ItemDone(Some(FunctionCall(_, _)))) => ""
            case _ => Preview(lines[..n])
  {
    assert lines[..n + 1][..n] == lines[..n];
  }

  // ---- what a turn that succeeds has said -------------------------------------------------

  function SayOf(out: Out): seq<string> { if out.Say? then [out.text] else [] }

  function Says(outs: seq<Out>): seq<string> { Gather(SayOf, outs) }

  predicate Speaks(st: State, op: Op) { st.status.Going? && op.Delta? && op.text != "" }

  predicate Concludes(st: State, op: Op) { st.status.Going? && op.Complete? && op.text != "" }

  /** The deltas that arrived before the stream ended. */
  function Deltas(ops: seq<Op>): seq<string> {
    if ops == [] then []
    else
      var init, last := ops[..|ops| - 1], ops[|ops| - 1];
      if Speaks(After(init), last) then Deltas(init) + [last.text] else Deltas(init)
  }

  /** The output of a completion that came before any delta. */
  function Early(ops: seq<Op>): seq<string> {
    if ops == [] then []
    else
      var init, last := ops[..|ops| - 1], ops[|ops| - 1];
      if Early(init) == [] && Deltas(init) == [] && Concludes(After(init), last) then [last.text] else Early(init)
  }

  /** The growing texts of a list of pieces. */
  function Prefixes(pieces: seq<string>): seq<string> {
    if pieces == [] then [] else Prefixes(pieces[..|pieces| - 1]) + [Concat(pieces)]
  }

  /** Tool ops carry tool events only. */
  ghost predicate Toolish(ops: seq<Op>) {
    forall op | op in ops && op.Tools? :: forall out | out in op.outs :: out.UseTool? || out.ToolDone?
  }

  lemma VendorsToolish(hermes: seq<Line<HermesEvent>>, claw: seq<Line<ClawEvent>>)
    ensures Toolish(HermesOps(hermes)) && Toolish(ClawOps(claw))
  {
  }

  lemma HermesTurns(lines: seq<Line<HermesEvent>>, readError: Option<string>)
    ensures
      var run := Run(HermesOps(lines), readError);
      run.end.Ok? ==> WellSaid(run.outs, run.end.usage, HermesOps(lines))
  {
    VendorsToolish(lines, []);
    if Run(HermesOps(lines), readError).end.Ok? {
      Succeeds(HermesOps(lines), readError);
    }
  }

  lemma ClawTurns(lines: seq<Line<ClawEvent>>, readError: Option<string>)
    ensures
      var run := Run(ClawOps(lines), readError);
      run.end.Ok? ==> WellSaid(run.outs, run.end.usage, ClawOps(lines))
  {
    VendorsToolish([], lines);
    if Run(ClawOps(lines), readError).end.Ok? {
      Succeeds(ClawOps(lines), readError);
    }
  }

  lemma {:induction false} ToolsSilent(outs: seq<Out>)
    requires forall out | out in outs :: out.UseTool? || out.ToolDone?
    ensures Says(outs) == []
  {
    if outs != [] {
      var init, last := outs[..|outs| - 1], outs[|outs| - 1];
      ToolsSilent(init);
      assert outs == init + [last] && last in outs;
      GatherSilent(SayOf, init, last);
    }
  }

  lemma PiecesExtend(pieces: seq<string>, piece: string)
    ensures Concat(pieces + [piece]) == Concat(pieces) + piece
    ensures Prefixes(pieces + [piece]) == Prefixes(pieces) + [Concat(pieces) + piece]
  {
    GatherExtends((part: string) => part, pieces, piece);
    assert (pieces + [piece])[..|pieces|] == pieces;
  }

  /** A state accounted for by an early conclusion and deltas. */
  ghost predicate Accounts(st: State, early: seq<string>, deltas: seq<string>) {
    && Says(st.outs) == early + Prefixes(deltas) && st.said == Concat(deltas)
    && (st.emitted <==> early != [] || deltas != []) && |early| <= 1
  }

  lemma DeltaAccounts(st: State, text: string, early: seq<string>, deltas: seq<string>)
    requires Accounts(st, early, deltas) && Speaks(st, Delta(text))
    ensures Accounts(Step(st, Delta(text)), early, deltas + [text])
  {
    PiecesExtend(deltas, text);
    GatherExtends(SayOf, st.outs, Say(st.said + text));
    assert early + Prefixes(deltas) + [st.said + text] == early + (Prefixes(deltas) + [st.said + text]);
  }

  lemma ConclusionAccounts(st: State, op: Op, early: seq<string>, deltas: seq<string>)
    requires Accounts(st, early, deltas) && Concludes(st, op)
    ensures Accounts(Step(st, op), if early == [] && deltas == [] then [op.text] else early, deltas)
  {
    if !st.emitted {
      GatherExtends(SayOf, st.outs, Say(op.text));
      assert [] + Prefixes([]) == [] && [] + [op.text] == [op.text] + Prefixes([]);
    }
  }

  lemma SilentAccounts(st: State, op: Op, early: seq<string>, deltas: seq<string>)
    requires Accounts(st, early, deltas) && Toolish([op]) && !Speaks(st, op) && !Concludes(st, op)
    ensures Accounts(Step(st, op), early, deltas)
  {
    if st.status.Going? && op.Tools? {
      assert op in [op];
      ToolsSilent(op.outs);
      GatherAppend(SayOf, st.outs, op.outs);
      assert Says(st.outs) + [] == Says(st.outs);
    }
  }

  lemma {:induction false} SaysSoFar(ops: seq<Op>)
    requires Toolish(ops)
    ensures Accounts(After(ops), Early(ops), Deltas(ops))
  {
    if ops != [] {
      var init, last := ops[..|ops| - 1], ops[|ops| - 1];
      SaysSoFar(init);
      assert last in ops;
      if Speaks(After(init), last) {
        DeltaAccounts(After(init), last.text, Early(init), Deltas(init));
      } else if Concludes(After(init), last) {
        ConclusionAccounts(After(init), last, Early(init), Deltas(init));
      } else {
        SilentAccounts(After(init), last, Early(init), Deltas(init));
      }
    }
  }

  lemma {:induction false} NoSpanYet(ops: seq<Op>)
    requires Toolish(ops)
    ensures forall out | out in After(ops).outs :: !out.Span?
  {
    if ops != [] {
      NoSpanYet(ops[..|ops| - 1]);
      assert ops[|ops| - 1] in ops;
    }
  }

  /** Each text continues the one before. */
  ghost predicate Chain(texts: seq<string>) {
    forall i | 0 <= i < |texts| - 1 :: texts[i] <= texts[i + 1]
  }

  lemma {:induction false} PrefixesChain(pieces: seq<string>)
    ensures |Prefixes(pieces)| == |pieces| && Chain(Prefixes(pieces))
    ensures pieces != [] ==> Prefixes(pieces)[0] == pieces[0] && Prefixes(pieces)[|pieces| - 1] == Concat(pieces)
  {
    if pieces != [] {
      var n := |pieces| - 1;
      PrefixesChain(pieces[..n]);
      assert pieces == pieces[..n] + [pieces[n]];
      PiecesExtend(pieces[..n], pieces[n]);
      if n == 0 {
        assert pieces[..0] == [] && Concat([]) + pieces[0] == pieces[0];
      }
    }
  }

  /** What a turn that succeeded has said: at least one thing, and its only usage span
      last. Its texts end in the concatenation of all deltas when any arrived, and each
      continues the one before exactly when no completion had already said something
      that the first delta does not continue. */
  ghost predicate WellSaid(outs: seq<Out>, usage: Option<Usage>, ops: seq<Op>) {
    var says, early, deltas := Says(outs), Early(ops), Deltas(ops);
    && outs != [] && outs[|outs| - 1] == Span(usage) && (forall i | 0 <= i < |outs| - 1 :: !outs[i].Span?)
    && says != [] && says == (if early == [] && deltas == [] then [""] else early + Prefixes(deltas))
    && (deltas != [] ==> says[|says| - 1] == Concat(deltas))
    && (Chain(says) <==> early == [] || deltas == [] || early[0] <= deltas[0])
  }

  lemma Succeeds(ops: seq<Op>, readError: Option<string>)
    requires Toolish(ops) && Run(ops, readError).end.Ok?
    ensures WellSaid(Run(ops, readError).outs, Run(ops, readError).end.usage, ops)
  {
    var st, early, deltas := After(ops), Early(ops), Deltas(ops);
    SaysSoFar(ops);
    NoSpanYet(ops);
    TailSays(st, early, deltas);
    TailSpan(st);
    AllSaid(early, deltas);
  }

  lemma TailSpan(st: State)
    requires forall out | out in st.outs :: !out.Span?
    ensures
      var outs := st.outs + (if st.emitted then [] else [Say("")]) + [Span(st.usage)];
      outs[|outs| - 1] == Span(st.usage) && forall i | 0 <= i < |outs| - 1 :: !outs[i].Span?
  {
  }

  lemma AllSaid(early: seq<string>, deltas: seq<string>)
    requires |early| <= 1
    ensures
      var says := if early == [] && deltas == [] then [""] else early + Prefixes(deltas);
      && says != [] && (deltas != [] ==> says[|says| - 1] == Concat(deltas))
      && (Chain(says) <==> early == [] || deltas == [] || early[0] <= deltas[0])
  {
    PrefixesChain(deltas);
    EarlyChain(early, deltas);
  }

  lemma TailSays(st: State, early: seq<string>, deltas: seq<string>)
    requires Accounts(st, early, deltas) && !st.status.Failed?
    ensures Says(st.outs + (if st.emitted then [] else [Say("")]) + [Span(st.usage)])
         == if early == [] && deltas == [] then [""] else early + Prefixes(deltas)
  {
    var body := st.outs + if st.emitted then [] else [Say("")];
    GatherSilent(SayOf, body, Span(st.usage));
    if st.emitted {
      assert body == st.outs;
    } else {
      GatherExtends(SayOf, st.outs, Say(""));
      assert [] + Prefixes([]) == [] && [] + [""] == [""];
    }
  }

  lemma EarlyChain(early: seq<string>, deltas: seq<string>)
    requires |early| <= 1
    ensures Chain(early + Prefixes(deltas)) <==> early == [] || deltas == [] || early[0] <= deltas[0]
  {
    var texts := early + Prefixes(deltas);
    PrefixesChain(deltas);
    if early == [] {
      assert texts == Prefixes(deltas);
    } else if deltas != [] {
      assert texts[0] == early[0] && texts[1] == deltas[0];
      forall i | 1 <= i < |texts| - 1 ensures texts[i] <= texts[i + 1] {
        assert texts[i] == Prefixes(deltas)[i - 1] && texts[i + 1] == Prefixes(deltas)[i];
      }
    }
  }

  lemma TwoOps(first: Op, second: Op)
    ensures After([first, second]) == Step(Step(FRESH, first), second)
  {
    assert [first, second][..1] == [first] && [first][..0] == [];
    assert After([first]) == Step(FRESH, first);
  }

  lemma CompleteThenDelta(a: string, c: string)
    requires a != "" && c != ""
    ensures Run([Complete(a, None), Delta(c)], None) == Ideal([Say(a), Say(c), Span(None)], Ok(None))
  {
    TwoOps(Complete(a, None), Delta(c));
    assert "" + c == c && [Say(a)] + [Say(c)] + [] + [Span(None)] == [Say(a), Say(c), Span(None)];
  }

  /** The failing input on both wires: a completion that speaks, then a delta. Both say
      the two texts one after the other. */
  lemma DeltaAfterCompletion(a: string, c: string)
    requires a != "" && c != ""
    ensures
      var lines := [Data(RunCompleted(a, None)), Data(MessageDelta(c))];
      Run(HermesOps(lines), None) == Ideal([Say(a), Say(c), Span(None)], Ok(None))
    ensures
      var lines := [Data(Completed(Some(Response([Message([Part(true, a)])], None, None)))), Data(TextDelta(c))];
      Run(ClawOps(lines), None) == Ideal([Say(a), Say(c), Span(None)], Ok(None))
  {
    var hermes := [Data(RunCompleted(a, None)), Data(MessageDelta(c))];
    assert HermesOps(hermes) == [Complete(a, None), Delta(c)];
    GatherOne(PartText, Part(true, a));
    GatherOne(ItemText, Message([Part(true, a)]));
    var claw := [Data(Completed(Some(Response([Message([Part(true, a)])], None, None)))), Data(TextDelta(c))];
    assert ClawOps(claw) == [Complete(a, None), Delta(c)];
    CompleteThenDelta(a, c);
  }

  /** The callback sees what would be collected, up to the first event it refuses. */
  lemma CallbackAndCollect(refuses: nat -> Option<string>, ideal: Ideal, collected: seq<Out>, end: End,
                           handed: seq<Out>, end': End)
    requires Delivered(Collect, collected, end, ideal) && Delivered(Callback(refuses), handed, end', ideal)
    ensures handed <= collected && collected == ideal.outs && end == ideal.end
    ensures (forall k: nat | k < |collected| :: refuses(k).None?) ==> handed == collected && end' == end
    ensures handed == collected && (collected == [] || refuses(|collected| - 1).None?) ==> end' == end
  {
  }
}
