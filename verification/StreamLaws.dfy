/** What a Hermes run or an OpenClaw response makes of the lines of its stream, told
    from the lines themselves. */
module StreamLaws {
  import opened Folds
  import opened ManagedStreams
  import opened Text

  /** What one line has to say. */
  datatype Fact = Fact(ends: bool, tools: seq<Out>, delta: string, output: string, usage: Option<Usage>)

  // ---- the lines of a Hermes run ----------------------------------------------------

  predicate HermesEnds(line: Line<HermesEvent>) { line.DoneMark? || (line.Data? && line.event.RunFailed?) }

  function HermesTools(line: Line<HermesEvent>): seq<Out> {
    if line.Data? && line.event.ToolStarted? then [UseTool(line.event.tool, line.event.preview)]
    else if line.Data? && line.event.ToolCompleted? then
      [ToolDone(line.event.tool,
                if !line.event.failed then "(completed in " + line.event.seconds + "s)" else "(failed)")]
    else []
  }

  function HermesDelta(line: Line<HermesEvent>): string {
    if line.Data? && line.event.MessageDelta? then line.event.delta else ""
  }

  function HermesOutput(line: Line<HermesEvent>): string {
    if line.Data? && line.event.RunCompleted? then line.event.output else ""
  }

  function HermesUsage(line: Line<HermesEvent>): Option<Usage> {
    if line.Data? && line.event.RunCompleted? then line.event.usage else None
  }

  function HermesFacts(lines: seq<Line<HermesEvent>>): seq<Fact> {
    seq(|lines|, i requires 0 <= i < |lines| =>
      Fact(HermesEnds(lines[i]), HermesTools(lines[i]), HermesDelta(lines[i]), HermesOutput(lines[i]),
           HermesUsage(lines[i])))
  }

  // ---- the lines of an OpenClaw response ----------------------------------------------

  predicate ClawEnds(line: Line<ClawEvent>) { line.DoneMark? || (line.Data? && line.event.ResponseFailed?) }

  predicate CallAdded(line: Line<ClawEvent>) {
    line.Data? && line.event.ItemAdded? && line.event.item.Some? && line.event.item.value.FunctionCall?
  }

  predicate CallDone(line: Line<ClawEvent>) {
    line.Data? && line.event.ItemDone? && line.event.item.Some? && line.event.item.value.FunctionCall?
  }

  /** The arguments of the call among the first n lines that was added last, if none was
      done since. */
  function OpenArguments(lines: seq<Line<ClawEvent>>, n: nat): string
    requires n <= |lines|
  {
    if n == 0 || CallDone(lines[n - 1]) then ""
    else if CallAdded(lines[n - 1]) then lines[n - 1].event.item.value.arguments
    else OpenArguments(lines, n - 1)
  }

  function ClawTools(lines: seq<Line<ClawEvent>>, n: nat): seq<Out>
    requires n < |lines|
  {
    if !CallDone(lines[n]) then []
    else
      var call := lines[n].event.item.value;
      [UseTool(call.name, if call.arguments == "" then OpenArguments(lines, n) else call.arguments),
       ToolDone(call.name, "(completed)")]
  }

  function ClawDelta(line: Line<ClawEvent>): string {
    if line.Data? && line.event.TextDelta? then line.event.delta else ""
  }

  predicate HasResponse(line: Line<ClawEvent>) {
    line.Data? && line.event.Completed? && line.event.response.Some?
  }

  function PartSays(p: Part): string { if p.isOutputText then p.text else "" }

  function ItemSays(item: Item): string {
    match item
    case Message(content) => Gather(PartSays, content)
    case FunctionCall(_, _) => ""
    case OtherItem => ""
  }

  function ClawOutput(line: Line<ClawEvent>): string {
    if HasResponse(line) then Gather(ItemSays, line.event.response.value.output) else ""
  }

  function ClawUsage(line: Line<ClawEvent>): Option<Usage> {
    if HasResponse(line) then line.event.response.value.usage else None
  }

  function ClawFacts(lines: seq<Line<ClawEvent>>): seq<Fact> {
    seq(|lines|, i requires 0 <= i < |lines| =>
      Fact(ClawEnds(lines[i]), ClawTools(lines, i), ClawDelta(lines[i]), ClawOutput(lines[i]), ClawUsage(lines[i])))
  }

  // ---- what a stream tells -------------------------------------------------------------

  /** The lines before the first that ends the stream. */
  function Live(facts: seq<Fact>): (live: seq<Fact>)
    ensures live <= facts
    ensures |live| < |facts| ==> facts[|live|].ends
  {
    if facts == [] then []
    else
      var n := |facts| - 1;
      var live := Live(facts[..n]);
      if |live| == n && !facts[n].ends then facts else live
  }

  function ToolsIn(facts: seq<Fact>): seq<Out> { Gather((f: Fact) => f.tools, facts) }

  /** The deltas that are not empty. */
  function DeltasIn(facts: seq<Fact>): seq<string> {
    Gather((f: Fact) => if f.delta == "" then [] else [f.delta], facts)
  }

  /** The output that comes before any delta. */
  function EarlyIn(facts: seq<Fact>): seq<string> {
    if facts == [] then []
    else
      var init, last := facts[..|facts| - 1], facts[|facts| - 1];
      if EarlyIn(init) == [] && DeltasIn(init) == [] && last.output != "" then [last.output] else EarlyIn(init)
  }

  function UsageIn(facts: seq<Fact>): Option<Usage> {
    if facts == [] then None
    else
      var last := facts[|facts| - 1];
      if last.usage.Some? then last.usage else UsageIn(facts[..|facts| - 1])
  }

  predicate IsTool(out: Out) { out.UseTool? || out.ToolDone? }

  /** The tool events among those handed on. */
  function ToolsOf(outs: seq<Out>): seq<Out> { Gather((out: Out) => if IsTool(out) then [out] else [], outs) }

  /** An op and what its line says. */
  predicate Fits(op: Op, fact: Fact) {
    && (fact.ends <==> op.Stop? || op.Fail?)
    && fact.tools == (if op.Tools? then op.outs else []) && (forall out | out in fact.tools :: IsTool(out))
    && fact.delta == (if op.Delta? then op.text else "")
    && fact.output == (if op.Complete? then op.text else "")
    && fact.usage == (if op.Complete? then op.usage else None)
    && (op.Tools? ==> fact.delta == "" == fact.output && fact.usage.None?)
  }

  ghost predicate AllFit(ops: seq<Op>, facts: seq<Fact>) {
    |ops| == |facts| && forall i | 0 <= i < |ops| :: Fits(ops[i], facts[i])
  }

  lemma {:induction false} OnlyTools(outs: seq<Out>)
    requires forall out | out in outs :: IsTool(out)
    ensures ToolsOf(outs) == outs
  {
    if outs != [] {
      var init, last := outs[..|outs| - 1], outs[|outs| - 1];
      assert outs == init + [last] && last in outs;
      OnlyTools(init);
    }
  }

  lemma ToolsMore(outs: seq<Out>, more: seq<Out>)
    ensures ToolsOf(outs + more) == ToolsOf(outs) + ToolsOf(more)
  {
    GatherAppend((out: Out) => if IsTool(out) then [out] else [], outs, more);
  }

  lemma NoTool(outs: seq<Out>, out: Out)
    requires !IsTool(out)
    ensures ToolsOf(outs + [out]) == ToolsOf(outs)
  {
    GatherSilent((x: Out) => if IsTool(x) then [x] else [], outs, out);
  }

  /** A state and what the lines before it said. */
  ghost predicate Tells(st: State, ops: seq<Op>, live: seq<Fact>) {
    && ToolsOf(st.outs) == ToolsIn(live) && st.usage == UsageIn(live)
    && Deltas(ops) == DeltasIn(live) && Early(ops) == EarlyIn(live)
  }

  lemma FactsMore(facts: seq<Fact>, fact: Fact)
    ensures ToolsIn(facts + [fact]) == ToolsIn(facts) + fact.tools
    ensures DeltasIn(facts + [fact]) == DeltasIn(facts) + if fact.delta == "" then [] else [fact.delta]
    ensures UsageIn(facts + [fact]) == if fact.usage.Some? then fact.usage else UsageIn(facts)
    ensures EarlyIn(facts + [fact])
         == if EarlyIn(facts) == [] && DeltasIn(facts) == [] && fact.output != "" then [fact.output]
            else EarlyIn(facts)
  {
    GatherExtends((f: Fact) => f.tools, facts, fact);
    GatherExtends((f: Fact) => if f.delta == "" then [] else [f.delta], facts, fact);
    assert (facts + [fact])[..|facts|] == facts;
  }

  /** The tools and the usage after one op. */
  lemma OpTells(st: State, op: Op, live: seq<Fact>, fact: Fact)
    requires st.status.Going? && Fits(op, fact) && !fact.ends
    requires ToolsOf(st.outs) == ToolsIn(live) && st.usage == UsageIn(live)
    ensures ToolsOf(Step(st, op).outs) == ToolsIn(live + [fact]) && Step(st, op).usage == UsageIn(live + [fact])
  {
    FactsMore(live, fact);
    if op.Tools? {
      ToolsMore(st.outs, op.outs);
      OnlyTools(op.outs);
    } else {
      assert ToolsIn(live) + [] == ToolsIn(live);
      QuietOp(st, op);
    }
  }

  lemma QuietOp(st: State, op: Op)
    requires !op.Tools?
    ensures ToolsOf(Step(st, op).outs) == ToolsOf(st.outs)
  {
    match op
    case Delta(text) => NoTool(st.outs, Say(st.said + text));
    case Complete(text, _) => NoTool(st.outs, Say(text));
    case _ =>
  }

  /** The deltas and the early output after one op. */
  lemma NextTexts(ops: seq<Op>, op: Op)
    requires After(ops).status.Going?
    ensures Deltas(ops + [op]) == if op.Delta? && op.text != "" then Deltas(ops) + [op.text] else Deltas(ops)
    ensures Early(ops + [op])
         == if Early(ops) == [] && Deltas(ops) == [] && op.Complete? && op.text != "" then [op.text] else Early(ops)
  {
    assert (ops + [op])[..|ops|] == ops;
  }

  /** The texts after one op. */
  lemma OpTexts(ops: seq<Op>, op: Op, live: seq<Fact>, fact: Fact)
    requires After(ops).status.Going? && Fits(op, fact) && !fact.ends
    requires Deltas(ops) == DeltasIn(live) && Early(ops) == EarlyIn(live)
    ensures Deltas(ops + [op]) == DeltasIn(live + [fact]) && Early(ops + [op]) == EarlyIn(live + [fact])
  {
    FactsMore(live, fact);
    NextTexts(ops, op);
    assert DeltasIn(live) + [] == DeltasIn(live);
  }

  /** After an end nothing is told any more. */
  lemma EndedTells(ops: seq<Op>, op: Op)
    requires !After(ops).status.Going? || Ends(op)
    ensures Deltas(ops + [op]) == Deltas(ops) && Early(ops + [op]) == Early(ops)
  {
    assert (ops + [op])[..|ops|] == ops;
  }

  lemma EndedStays(st: State, op: Op)
    requires !st.status.Going? || Ends(op)
    ensures Step(st, op).outs == st.outs && Step(st, op).usage == st.usage
    ensures Step(st, op).status == if st.status.Going? then Closed(op) else st.status
  {
  }

  lemma StepAfter(ops: seq<Op>, op: Op)
    ensures After(ops + [op]) == Step(After(ops), op)
  {
    assert (ops + [op])[..|ops|] == ops;
  }

  predicate Ends(op: Op) { op.Stop? || op.Fail? }

  function Closed(op: Op): Status
    requires Ends(op)
  {
    match op
    case Stop => Stopped
    case Fail(error) => Failed(error)
  }

  ghost predicate StateIs(ops: seq<Op>, facts: seq<Fact>) {
    && |ops| == |facts| && Tells(After(ops), ops, Live(facts))
    && After(ops).status
       == if |Live(facts)| == |facts| then Going
          else if Ends(ops[|Live(facts)|]) then Closed(ops[|Live(facts)|]) else Going
  }

  lemma LiveMore(facts: seq<Fact>, fact: Fact)
    ensures Live(facts + [fact]) == if Live(facts) == facts && !fact.ends then facts + [fact] else Live(facts)
  {
    assert (facts + [fact])[..|facts|] == facts;
  }

  lemma StillGoing(st: State, op: Op)
    requires st.status.Going? && !Ends(op)
    ensures Step(st, op).status.Going?
  {
  }

  lemma OneLive(ops: seq<Op>, op: Op, facts: seq<Fact>, fact: Fact)
    requires StateIs(ops, facts) && Live(facts) == facts && Fits(op, fact) && !fact.ends
    ensures StateIs(ops + [op], facts + [fact])
  {
    LiveMore(facts, fact);
    OpTells(After(ops), op, facts, fact);
    OpTexts(ops, op, facts, fact);
    StepAfter(ops, op);
    StillGoing(After(ops), op);
  }

  lemma OneEnd(ops: seq<Op>, op: Op, facts: seq<Fact>, fact: Fact)
    requires StateIs(ops, facts) && Live(facts) == facts && Fits(op, fact) && fact.ends
    ensures StateIs(ops + [op], facts + [fact])
  {
    LiveMore(facts, fact);
    EndedTells(ops, op);
    EndedStays(After(ops), op);
    StepAfter(ops, op);
  }

  lemma OneAfter(ops: seq<Op>, op: Op, facts: seq<Fact>, fact: Fact)
    requires StateIs(ops, facts) && |Live(facts)| < |facts| && Ends(ops[|Live(facts)|])
    ensures StateIs(ops + [op], facts + [fact])
  {
    LiveMore(facts, fact);
    EndedTells(ops, op);
    EndedStays(After(ops), op);
    StepAfter(ops, op);
  }

  lemma FitInit(ops: seq<Op>, facts: seq<Fact>, n: nat)
    requires AllFit(ops, facts) && |ops| == n + 1
    ensures AllFit(ops[..n], facts[..n]) && Fits(ops[n], facts[n])
    ensures ops == ops[..n] + [ops[n]] && facts == facts[..n] + [facts[n]]
    ensures |Live(facts[..n])| < n ==> Ends(ops[..n][|Live(facts[..n])|])
  {
    forall i | 0 <= i < n ensures Fits(ops[..n][i], facts[..n][i]) {
      assert Fits(ops[i], facts[i]);
    }
    var k := |Live(facts[..n])|;
    if k < n {
      assert Fits(ops[k], facts[k]) && facts[..n][k] == facts[k];
    }
  }

  /** The state after any lines. */
  lemma {:induction false} StateTells(ops: seq<Op>, facts: seq<Fact>)
    requires AllFit(ops, facts)
    ensures StateIs(ops, facts)
  {
    if ops != [] {
      var n := |ops| - 1;
      FitInit(ops, facts, n);
      StateTells(ops[..n], facts[..n]);
      OneMore(ops[..n], ops[n], facts[..n], facts[n]);
    }
  }

  lemma OneMore(ops: seq<Op>, op: Op, facts: seq<Fact>, fact: Fact)
    requires StateIs(ops, facts) && Fits(op, fact)
    requires |Live(facts)| < |facts| ==> Ends(ops[|Live(facts)|])
    ensures StateIs(ops + [op], facts + [fact])
  {
    if |Live(facts)| < |facts| {
      OneAfter(ops, op, facts, fact);
    } else if fact.ends {
      OneEnd(ops, op, facts, fact);
    } else {
      OneLive(ops, op, facts, fact);
    }
  }

  /** How the stream of a vendor ends that goes wrong with `failure`, if it does. */
  function EndOf(failure: Option<string>, readError: Option<string>, usage: Option<Usage>): End {
    if failure.Some? then Err(failure.value) else if readError.Some? then Err(readError.value) else Ok(usage)
  }

  /** A run and the lines it was made of. */
  ghost predicate RunTells(run: Ideal, live: seq<Fact>, failure: Option<string>, readError: Option<string>) {
    && run.end == EndOf(failure, readError, UsageIn(live))
    && ToolsOf(run.outs) == ToolsIn(live)
    && Says(run.outs)
       == EarlyIn(live) + Prefixes(DeltasIn(live))
          + (if run.end.Ok? && EarlyIn(live) == [] && DeltasIn(live) == [] then [""] else [])
    && (forall i | 0 <= i < |run.outs| - 1 :: !run.outs[i].Span?)
    && (run.outs != [] && run.outs[|run.outs| - 1].Span? <==> run.end.Ok?)
    && (run.end.Ok? ==> run.outs[|run.outs| - 1] == Span(UsageIn(live)))
  }

  function FailureOf(st: State): Option<string> { if st.status.Failed? then Some(st.status.error) else None }

  lemma FinishTells(st: State, ops: seq<Op>, live: seq<Fact>, readError: Option<string>)
    requires st == After(ops) && Tells(st, ops, live) && Toolish(ops)
    ensures RunTells(Finish(st, readError), live, FailureOf(st), readError)
  {
    SaysSoFar(ops);
    NoSpanYet(ops);
    var texts := EarlyIn(live) + Prefixes(DeltasIn(live));
    assert texts + [] == texts;
    if !st.status.Failed? && readError.None? {
      TailSays(st, EarlyIn(live), DeltasIn(live));
      TailSpan(st);
      TailTools(st);
      assert [] + Prefixes([]) + [""] == [""];
    }
  }

  lemma TailTools(st: State)
    ensures ToolsOf(st.outs + (if st.emitted then [] else [Say("")]) + [Span(st.usage)]) == ToolsOf(st.outs)
  {
    var body := st.outs + if st.emitted then [] else [Say("")];
    NoTool(body, Span(st.usage));
    if st.emitted {
      assert body == st.outs;
    } else {
      NoTool(st.outs, Say(""));
    }
  }

  /** How the first line that ends the stream fails it, if it does. */
  function FailedWith(ops: seq<Op>, n: nat): Option<string> {
    if n < |ops| && ops[n].Fail? then Some(ops[n].error) else None
  }

  lemma EndTells(ops: seq<Op>, facts: seq<Fact>)
    requires AllFit(ops, facts)
    ensures Tells(After(ops), ops, Live(facts)) && FailureOf(After(ops)) == FailedWith(ops, |Live(facts)|)
  {
    StateTells(ops, facts);
    var n := |Live(facts)|;
    if n < |ops| {
      assert Fits(ops[n], facts[n]);
    }
  }

  lemma OpsTell(ops: seq<Op>, facts: seq<Fact>, readError: Option<string>, failure: Option<string>)
    requires AllFit(ops, facts) && Toolish(ops) && failure == FailedWith(ops, |Live(facts)|)
    ensures RunTells(Run(ops, readError), Live(facts), failure, readError)
  {
    EndTells(ops, facts);
    FinishTells(After(ops), ops, Live(facts), readError);
  }

  // ---- the two vendors ----------------------------------------------------------------

  function Prefixed(prefix: string, error: Option<string>): Option<string> {
    match error
    case None => None
    case Some(e) => Some(prefix + e)
  }

  lemma HermesWorded(readError: Option<string>)
    ensures Worded("hermes", readError) == Prefixed("hermes stream read: ", readError)
  {
    assert "hermes" + " stream read: " == "hermes stream read: ";
  }

  /** The message of a failed run. */
  function HermesFailure(lines: seq<Line<HermesEvent>>): Option<string> {
    var n := |Live(HermesFacts(lines))|;
    if n < |lines| && lines[n].Data? && lines[n].event.RunFailed? then
      var e := lines[n].event;
      Some(if e.reason == "" == e.text then "run failed" else if e.reason == "" then e.text else e.reason)
    else None
  }

  lemma HermesFit(lines: seq<Line<HermesEvent>>)
    ensures AllFit(HermesOps(lines), HermesFacts(lines))
  {
  }

  lemma HermesFails(lines: seq<Line<HermesEvent>>, n: nat)
    requires n == |Live(HermesFacts(lines))|
    ensures Prefixed("hermes run failed: ", HermesFailure(lines)) == FailedWith(HermesOps(lines), n)
  {
  }

  /** A Hermes run hands on the tool events and texts of the lines before its end, and
      ends with their last usage, or with the error of the line that failed it. */
  lemma HermesTells(lines: seq<Line<HermesEvent>>, readError: Option<string>)
    ensures
      RunTells(Run(HermesOps(lines), Worded("hermes", readError)), Live(HermesFacts(lines)),
               Prefixed("hermes run failed: ", HermesFailure(lines)), Prefixed("hermes stream read: ", readError))
  {
    HermesFit(lines);
    VendorsToolish(lines, []);
    HermesFails(lines, |Live(HermesFacts(lines))|);
    HermesWorded(readError);
    var ops, facts := HermesOps(lines), HermesFacts(lines);
    var failure := Prefixed("hermes run failed: ", HermesFailure(lines));
    OpsTell(ops, facts, Worded("hermes", readError), failure);
  }

  /** The message of a failed response. */
  function ClawFailure(lines: seq<Line<ClawEvent>>): Option<string> {
    var n := |Live(ClawFacts(lines))|;
    if n < |lines| && lines[n].Data? && lines[n].event.ResponseFailed? then
      var e := lines[n].event;
      if e.response.Some? && e.response.value.error.Some? && e.response.value.error != Some("") then
        e.response.value.error
      else Some(if e.message == "" then "response failed" else e.message)
    else None
  }

  lemma {:induction false} OpenIs(lines: seq<Line<ClawEvent>>, n: nat)
    requires n <= |lines|
    ensures OpenArguments(lines, n) == Preview(lines[..n])
  {
    if n > 0 {
      OpenIs(lines, n - 1);
      PreviewNext(lines, n - 1);
    }
  }

  lemma {:induction false} PartsSay(parts: seq<Part>)
    ensures Gather(PartSays, parts) == Gather(PartText, parts)
  {
    if parts != [] {
      PartsSay(parts[..|parts| - 1]);
    }
  }

  lemma {:induction false} ItemsSay(items: seq<Item>)
    ensures Gather(ItemSays, items) == Gather(ItemText, items)
  {
    if items != [] {
      var last := items[|items| - 1];
      ItemsSay(items[..|items| - 1]);
      if last.Message? {
        PartsSay(last.content);
      }
    }
  }

  lemma ClawFits(lines: seq<Line<ClawEvent>>, n: nat)
    requires n < |lines|
    ensures Fits(ClawOps(lines)[n], ClawFacts(lines)[n])
  {
    OpenIs(lines, n);
    if HasResponse(lines[n]) {
      ItemsSay(lines[n].event.response.value.output);
    }
  }

  lemma ClawFails(lines: seq<Line<ClawEvent>>, n: nat)
    requires n == |Live(ClawFacts(lines))|
    ensures Prefixed("openclaw: ", ClawFailure(lines)) == FailedWith(ClawOps(lines), n)
  {
  }

  lemma ClawFit(lines: seq<Line<ClawEvent>>)
    ensures AllFit(ClawOps(lines), ClawFacts(lines))
  {
    forall i | 0 <= i < |lines| ensures Fits(ClawOps(lines)[i], ClawFacts(lines)[i]) {
      ClawFits(lines, i);
    }
  }

  lemma ClawWorded(readError: Option<string>)
    ensures Worded("openclaw", readError) == Prefixed("openclaw stream read: ", readError)
  {
    assert "openclaw" + " stream read: " == "openclaw stream read: ";
  }

  /** An OpenClaw response does the same with its lines; a call shows the arguments it was
      added with when it is done without any. */
  lemma ClawTells(lines: seq<Line<ClawEvent>>, readError: Option<string>)
    ensures
      RunTells(Run(ClawOps(lines), Worded("openclaw", readError)), Live(ClawFacts(lines)),
               Prefixed("openclaw: ", ClawFailure(lines)), Prefixed("openclaw stream read: ", readError))
  {
    ClawFit(lines);
    VendorsToolish([], lines);
    ClawFails(lines, |Live(ClawFacts(lines))|);
    ClawWorded(readError);
    var ops, facts := ClawOps(lines), ClawFacts(lines);
    var failure := Prefixed("openclaw: ", ClawFailure(lines));
    OpsTell(ops, facts, Worded("openclaw", readError), failure);
  }
}
