/** A workflow step run as a sub-agent: what it tells the session log, whatever
    its sub-turns do, and how the derived threads follow it. */
module SubAgentRun {
  import opened Folds
  import opened Text
  import Wire
  import Assemble
  import opened Threads

  datatype TurnResult = Raised(error: string) | Returned(events: seq<Wire.WireEvent>)

  /** A sub-turn: what it emitted while running, and how it ended. */
  datatype Turn = Turn(emitted: seq<Event>, result: TurnResult)

  /** One run; `turns(k)` is its k-th sub-turn, `extract` finds valid structured
      output in a text. `heard` tells whether the runtime has an event sink, and
      `refuses(k)` is the error that sink raises for the run's own k-th event, if it
      refuses it. */
  datatype Run = Run(
    threadId: string, toolId: string, agentId: string, agentName: string, parentThread: string,
    step: string, prompt: string, schema: bool, retries: int,
    turns: nat -> Turn, extract: string -> Option<string>,
    heard: bool, refuses: nat -> Option<string>)

  datatype Outcome =
    | Failed(error: string)
    | NoText(warning: string)
    | Finished(text: string, structured: Option<string>)

  /** How the sink takes an event; a refusal is raised. */
  datatype Taken = Taken | Refused(error: string) {
    predicate IsFailure() { Refused? }

    function PropagateFailure(): Taken
      requires IsFailure()
    {
      this
    }
  }

  const NO_TEXT := "Sub-agent completed with no text output"
  const FAILED := "Sub-agent failed"

  function Assembled(events: seq<Wire.WireEvent>): string {
    Assemble.LastText(Assemble.Segments(events), PySpace)
  }

  function Take(s: string, n: nat): string { if |s| <= n then s else s[..n] }

  function TaskId(r: Run): string {
    "task_" + if |r.threadId| <= 12 then r.threadId else r.threadId[|r.threadId| - 12..]
  }

  function StepLabel(r: Run): string { if r.step == "" then "workflow-agent" else r.step }

  function SchemaError(r: Run): string {
    "SubAgent '" + r.step + "' did not produce valid structured output after repair attempts"
  }

  function Retries(r: Run): nat { if r.retries < 0 then 0 else r.retries }

  // ---- what a run does ---------------------------------------------------------------

  /** How the sub-turns ended: how many were taken, the last text, and the error. */
  datatype Ending = Ending(taken: nat, text: string, structured: Option<string>, error: Option<string>)

  /** From the k-th sub-turn on, with `left` repairs allowed after it. */
  function Attempts(r: Run, left: nat, k: nat, text: string): Ending
    decreases left
  {
    match r.turns(k).result
    case Raised(error) => Ending(k + 1, text, None, Some(error))
    case Returned(events) =>
      var now := Assembled(events);
      if !r.schema || r.extract(now).Some? then
        Ending(k + 1, now, if r.schema then r.extract(now) else None, None)
      else Repair(r, left, k + 1, now)
  }

  function Repair(r: Run, left: nat, k: nat, text: string): Ending
    decreases left, 0
  {
    if left == 0 then Ending(k, text, None, Some(SchemaError(r))) else Attempts(r, left - 1, k, text)
  }

  function Ended(r: Run): Ending { Attempts(r, Retries(r), 0, "") }

  function TurnEvents(r: Run, k: nat): seq<Event> {
    if k == 0 then [] else TurnEvents(r, k - 1) + r.turns(k - 1).emitted
  }

  function Summary(e: Ending): string {
    if e.text != "" then Take(e.text, 500) else if e.error.Some? then e.error.value else ""
  }

  function ResultBody(e: Ending): string {
    Take(if Summary(e) != "" then Summary(e) else if e.error.Some? then FAILED else NO_TEXT, 8000)
  }

  function Parent(r: Run): string { if r.parentThread == "" then PRIMARY else r.parentThread }

  predicate PlainChar(c: char) { 'a' <= c <= 'z' || 'A' <= c <= 'Z' || '0' <= c <= '9' || c == '_' }

  /** The tool a delegation shows as called: other characters become underscores. */
  function ToolName(r: Run): string {
    "call_agent_" + seq(|r.agentId|, k requires 0 <= k < |r.agentId| =>
      if PlainChar(r.agentId[k]) then r.agentId[k] else '_')
  }

  function Opening(r: Run): seq<Event> {
    [Event(r.threadId, ThreadCreated(r.agentId, r.agentName, Parent(r))),
     Event(r.threadId, SubAgentStarted(TaskId(r), r.agentId, r.agentName)),
     Event(PRIMARY, Delegation(r.toolId, ToolName(r), r.prompt, StepLabel(r), r.threadId)),
     Event(r.threadId, UserMessage(r.prompt))]
  }

  function Closing(r: Run): seq<Event> {
    var e := Ended(r);
    [Event(PRIMARY, DelegationResult(r.toolId, ResultBody(e), e.error.Some?)),
     Event(r.threadId, SubAgentCompleted(
       TaskId(r), r.agentId, if Summary(e) != "" then Summary(e) else NO_TEXT, e.error.Some?)),
     Event(r.threadId, ThreadIdle)]
  }

  /** Everything a run emits when its sink takes all of it, in order. */
  function Emissions(r: Run): seq<Event> {
    Opening(r) + TurnEvents(r, Ended(r).taken) + Closing(r)
  }

  /** How many of the n own events from the k-th on the sink takes before refusing. */
  function Heard(r: Run, k: nat, n: nat): (taken: nat)
    ensures taken <= n
    decreases n
  {
    if n == 0 || r.refuses(k).Some? then 0 else 1 + Heard(r, k + 1, n - 1)
  }

  function RefusedAt(r: Run, k: nat): Taken {
    if r.refuses(k).Some? then Refused(r.refuses(k).value) else Taken.Taken
  }

  /** The n own events from the k-th on, as far as the sink takes them. */
  function Through(r: Run, k: nat, events: seq<Event>): seq<Event> {
    if r.heard then events[..Heard(r, k, |events|)] else []
  }

  /** The refusal among the n own events from the k-th on, if there is one. */
  function RefusalIn(r: Run, k: nat, n: nat): Taken {
    if r.heard && Heard(r, k, n) < n then RefusedAt(r, k + Heard(r, k, n)) else Taken.Taken
  }

  /** What a run emits: it stops where the sink refuses an event, but a refusal
      within a sub-turn is that sub-turn's error and the closing events still come. */
  function Said(r: Run): seq<Event> {
    if RefusalIn(r, 0, 4).Refused? then Through(r, 0, Opening(r))
    else Through(r, 0, Opening(r)) + TurnEvents(r, Ended(r).taken) + Through(r, 4, Closing(r))
  }

  /** The refusal that ended a run, if one did. */
  function Refusal(r: Run): Taken {
    if RefusalIn(r, 0, 4).Refused? then RefusalIn(r, 0, 4) else RefusalIn(r, 4, 3)
  }

  function Concluded(e: Ending): Outcome {
    if e.error.Some? then Failed(e.error.value)
    else if e.text == "" && e.structured.None? then NoText("no assistant text in sub-turn events")
    else Finished(e.text, e.structured)
  }

  /** With a sink, a run emits all of its events or stops somewhere among them. */
  lemma StopsEarly(r: Run)
    requires r.heard
    ensures Said(r) <= Emissions(r)
    ensures Said(r) == Emissions(r) <==> Refusal(r).Taken?
  {
    HeardAll(r, 0, 4);
    HeardAll(r, 4, 3);
    Cuts(Opening(r), TurnEvents(r, Ended(r).taken), Closing(r), Heard(r, 0, 4), Heard(r, 4, 3));
  }

  lemma Cuts<T>(a: seq<T>, b: seq<T>, c: seq<T>, m: nat, n: nat)
    requires m <= |a| && n <= |c|
    ensures a[..m] <= a + b + c && (c != [] ==> a[..m] != a + b + c)
    ensures a + b + c[..n] <= a + b + c && (a + b + c[..n] == a + b + c <==> n == |c|)
    ensures m == |a| ==> a[..m] == a
  {
    assert a + b + c == (a + b + c[..n]) + c[n..];
    assert a + b + c == a[..m] + (a[m..] + b + c);
    if n == |c| {
      assert c[..n] == c;
    } else {
      assert |a + b + c[..n]| < |a + b + c|;
    }
  }

  lemma Regroup<T>(a: seq<T>, b: seq<T>, c: seq<T>, d: seq<T>)
    ensures ((a + b) + c) + d == a + ((b + c) + d)
  {
  }

  lemma {:induction false} HeardAll(r: Run, k: nat, n: nat)
    ensures Heard(r, k, n) < n ==> r.refuses(k + Heard(r, k, n)).Some?
    ensures forall m: nat | k <= m < k + Heard(r, k, n) :: r.refuses(m).None?
    decreases n
  {
    if n > 0 && r.refuses(k).None? {
      HeardAll(r, k + 1, n - 1);
    }
  }

  lemma RepairOnce(r: Run, left: nat, k: nat, text: string)
    requires r.schema && left > 0
    ensures
      match r.turns(k).result
      case Raised(error) => Repair(r, left, k, text) == Ending(k + 1, text, None, Some(error))
      case Returned(events) => Repair(r, left, k, text) == Settled(r, left - 1, k + 1, Assembled(events))
  {
  }

  /** After a sub-turn that returned `text`. */
  function Settled(r: Run, left: nat, k: nat, text: string): Ending {
    if r.extract(text).Some? then Ending(k, text, r.extract(text), None) else Repair(r, left, k, text)
  }

  lemma HeardFour(r: Run)
    ensures Heard(r, 0, 4) ==
      if r.refuses(0).Some? then 0 else if r.refuses(1).Some? then 1
      else if r.refuses(2).Some? then 2 else if r.refuses(3).Some? then 3 else 4
  {
    assert Heard(r, 2, 2) == if r.refuses(2).Some? then 0 else if r.refuses(3).Some? then 1 else 2;
  }

  lemma HeardThree(r: Run)
    ensures Heard(r, 4, 3) ==
      if r.refuses(4).Some? then 0 else if r.refuses(5).Some? then 1 else if r.refuses(6).Some? then 2 else 3
  {
    assert Heard(r, 5, 2) == if r.refuses(5).Some? then 0 else if r.refuses(6).Some? then 1 else 2;
  }

  class Runtime {
    var emitted: seq<Event>

    /** Emits the run's own k-th event, if there is a sink. */
    method Emit(r: Run, k: nat, e: Event) returns (taken: Taken)
      modifies this
      ensures taken == if r.heard then RefusedAt(r, k) else Taken.Taken
      ensures emitted == old(emitted) + if r.heard && taken.Taken? then [e] else []
    {
      if !r.heard {
        return Taken.Taken;
      }
      if r.refuses(k).Some? {
        return Refused(r.refuses(k).value);
      }
      emitted := emitted + [e];
      return Taken.Taken;
    }

    method RunSubTurn(turn: Turn) returns (result: TurnResult)
      modifies this
      ensures emitted == old(emitted) + turn.emitted && result == turn.result
    {
      emitted := emitted + turn.emitted;
      return turn.result;
    }

    method EmitOpening(r: Run) returns (taken: Taken)
      modifies this
      ensures emitted == old(emitted) + Through(r, 0, Opening(r)) && taken == RefusalIn(r, 0, 4)
    {
      HeardFour(r);
      var parent := if r.parentThread == "" then PRIMARY else r.parentThread;
      :- Emit(r, 0, Event(r.threadId, ThreadCreated(r.agentId, r.agentName, parent)));
      :- Emit(r, 1, Event(r.threadId, SubAgentStarted(TaskId(r), r.agentId, r.agentName)));
      :- Emit(r, 2, Event(PRIMARY, Delegation(r.toolId, ToolName(r), r.prompt, StepLabel(r), r.threadId)));
      :- Emit(r, 3, Event(r.threadId, UserMessage(r.prompt)));
      return Taken.Taken;
    }

    /** The finally block. */
    method EmitClosing(r: Run, text: string, error: Option<string>) returns (taken: Taken)
      requires text == Ended(r).text && error == Ended(r).error
      modifies this
      ensures emitted == old(emitted) + Through(r, 4, Closing(r)) && taken == RefusalIn(r, 4, 3)
    {
      HeardThree(r);
      var summary := if text != "" then Take(text, 500) else "";
      if error.Some? && summary == "" {
        summary := error.value;
      }
      var body := summary;
      if summary == "" {
        body := if error.Some? then FAILED else NO_TEXT;
      }
      :- Emit(r, 4, Event(PRIMARY, DelegationResult(r.toolId, Take(body, 8000), error.Some?)));
      var told := if summary != "" then summary else NO_TEXT;
      :- Emit(r, 5, Event(r.threadId, SubAgentCompleted(TaskId(r), r.agentId, told, error.Some?)));
      :- Emit(r, 6, Event(r.threadId, ThreadIdle));
      return Taken.Taken;
    }

    /** The k-th sub-turn. */
    method RunTurn(r: Run, k: nat, ghost before: seq<Event>) returns (result: TurnResult)
      requires emitted == before + TurnEvents(r, k)
      modifies this
      ensures emitted == before + TurnEvents(r, k + 1) && result == r.turns(k).result
    {
      result := RunSubTurn(r.turns(k));
      assert emitted == before + (TurnEvents(r, k) + r.turns(k).emitted);
    }

    method RepairLoop(r: Run, first: string, ghost before: seq<Event>) returns (ending: Ending)
      requires r.schema && emitted == before + TurnEvents(r, 1)
      modifies this
      ensures ending == Settled(r, Retries(r), 1, first)
      ensures emitted == before + TurnEvents(r, ending.taken)
    {
      var text := first;
      var structured := r.extract(text);
      var retries := if r.retries < 0 then 0 else r.retries;
      var attempt := 0;
      while structured.None? && attempt < retries
        invariant 0 <= attempt <= retries
        invariant emitted == before + TurnEvents(r, attempt + 1)
        invariant structured == r.extract(text)
        invariant Settled(r, Retries(r), 1, first) == Settled(r, retries - attempt, attempt + 1, text)
      {
        RepairOnce(r, retries - attempt, attempt + 1, text);
        attempt := attempt + 1;
        var repair := RunTurn(r, attempt, before);
        if repair.Raised? {
          return Ending(attempt + 1, text, None, Some(repair.error));
        }
        text := Assemble.AssembleAssistantText(repair.events);
        structured := r.extract(text);
      }
      if structured.None? {
        return Ending(attempt + 1, text, None, Some(SchemaError(r)));
      }
      return Ending(attempt + 1, text, structured, None);
    }

    /** The sub-turn and its repairs. */
    method RunTurns(r: Run) returns (ending: Ending)
      modifies this
      ensures ending == Ended(r) && emitted == old(emitted) + TurnEvents(r, ending.taken)
    {
      ghost var before := emitted;
      assert before + TurnEvents(r, 0) == before;
      var result := RunTurn(r, 0, before);
      if result.Raised? {
        return Ending(1, "", None, Some(result.error));
      }
      var text := Assemble.AssembleAssistantText(result.events);
      if !r.schema {
        return Ending(1, text, None, None);
      }
      ending := RepairLoop(r, text, before);
    }

    /** OmaSubAgentRunner.run: once opened, the closing events come out on every path,
        and a refused event ends the run with the sink's error. */
    method Execute(r: Run) returns (outcome: Outcome)
      modifies this
      ensures emitted == old(emitted) + Said(r)
      ensures outcome == if Refusal(r).Refused? then Failed(Refusal(r).error) else Concluded(Ended(r))
    {
      ghost var before := emitted;
      var start := EmitOpening(r);
      if start.Refused? {
        return Failed(start.error);
      }
      var ending := RunTurns(r);
      var closed := EmitClosing(r, ending.text, ending.error);
      Regroup(before, Through(r, 0, Opening(r)), TurnEvents(r, ending.taken), Through(r, 4, Closing(r)));
      if closed.Refused? {
        return Failed(closed.error);
      }
      if ending.error.Some? {
        return Failed(ending.error.value);
      }
      if ending.text == "" && ending.structured.None? {
        return NoText("no assistant text in sub-turn events");
      }
      return Finished(ending.text, ending.structured);
    }
  }

  /** The repair loop is bounded, and structured output is always valid. */
  lemma {:induction false} AttemptsBounded(r: Run, left: nat, k: nat, text: string)
    ensures
      var e := Attempts(r, left, k, text);
      && k < e.taken <= k + 1 + left
      && (r.schema && e.error.None? ==> e.structured.Some? && e.structured == r.extract(e.text))
      && (!r.schema ==> e.taken == k + 1 && e.structured.None?)
    decreases left
  {
    if left > 0 && r.turns(k).result.Returned? {
      AttemptsBounded(r, left - 1, k + 1, Assembled(r.turns(k).result.events));
    }
  }

  // ---- many runs at once ---------------------------------------------------------------

  /** What one run has put into the log. */
  function Emitted(log: seq<Entry>, run: int): seq<Event> {
    if log == [] then []
    else
      var last := log[|log| - 1];
      Emitted(log[..|log| - 1], run) + if last.run == run then [last.event] else []
  }

  /** A lifecycle event of this thread. */
  predicate Names(e: Event, tid: string) { Lifecycle(e) && e.tid == tid }

  /** Thread ids are drawn once, and sub-turns emit no lifecycle events of them. */
  ghost predicate FreshThreads(runs: seq<Run>) {
    && (forall i | 0 <= i < |runs| :: runs[i].threadId != "" && runs[i].threadId != PRIMARY)
    && (forall i, j | 0 <= i < j < |runs| :: runs[i].threadId != runs[j].threadId)
    && forall i, j | 0 <= i < |runs| && 0 <= j < |runs| :: Quiet(runs[i], runs[j].threadId)
  }

  ghost predicate Quiet(r: Run, tid: string) {
    forall k: nat, e | e in r.turns(k).emitted :: !Names(e, tid)
  }

  /** A log in which each run has come some way, in any interleaving among events of
      others; a run whose sink refused an event has stopped there (see StopsEarly). */
  ghost predicate Interleaves(log: seq<Entry>, runs: seq<Run>) {
    forall i | 0 <= i < |runs| :: Emitted(log, i) <= Emissions(runs[i])
  }

  ghost predicate Outsider(entry: Entry, runs: seq<Run>) { !(0 <= entry.run < |runs|) }

  lemma {:induction false} TurnsQuiet(r: Run, tid: string, k: nat)
    requires Quiet(r, tid)
    ensures forall e | e in TurnEvents(r, k) :: !Names(e, tid)
  {
    if k > 0 {
      TurnsQuiet(r, tid, k - 1);
    }
  }

  /** Where the lifecycle events of a run stand. */
  lemma RunShape(r: Run, tid: string, n: nat)
    requires n < |Emissions(r)| && Quiet(r, tid) && tid != PRIMARY
    ensures
      var all := Emissions(r); var m := |all|;
      && m >= 7
      && (Names(all[n], tid) <==> r.threadId == tid && (n < 2 || n >= m - 2))
      && (n == 0 ==> all[n] == Opening(r)[0])
      && (n == 1 ==> all[n] == Opening(r)[1])
      && (n == m - 2 ==> all[n] == Closing(r)[1])
      && (n == m - 1 ==> all[n] == Closing(r)[2])
  {
    var turns := TurnEvents(r, Ended(r).taken);
    TurnsQuiet(r, tid, Ended(r).taken);
    var all, m := Emissions(r), |Emissions(r)|;
    if n < 4 {
      assert all[n] == Opening(r)[n];
    } else if n < m - 3 {
      assert all[n] == turns[n - 4];
      assert all[n] in turns;
    } else {
      assert all[n] == Closing(r)[n - (m - 3)];
    }
  }

  /** The thread of a run that has emitted n of its m events. */
  ghost predicate Follows(th: Option<Thread>, r: Run, n: nat, m: nat) {
    if n == 0 then th.None?
    else
      && th.Some? && th.value.id == r.threadId && th.value.agentId == r.agentId && th.value.agentName == r.agentName
      && th.value.parent == Some(Parent(r))
      && th.value.archivedAt.None?
      && th.value.status == if n == 1 then Active else if n < m - 1 then Running else Idle
  }

  lemma FollowsStep(th: Option<Thread>, r: Run, n: nat, entry: Entry)
    requires Quiet(r, r.threadId) && r.threadId != "" && r.threadId != PRIMARY
    requires n < |Emissions(r)| && entry.event == Emissions(r)[n] && Follows(th, r, n, |Emissions(r)|)
    ensures Names(entry.event, r.threadId) ==> Follows(Touch(th, entry), r, n + 1, |Emissions(r)|)
    ensures !Names(entry.event, r.threadId) ==> Follows(th, r, n + 1, |Emissions(r)|)
  {
    RunShape(r, r.threadId, n);
  }

  lemma EarlierInterleaves(log: seq<Entry>, runs: seq<Run>)
    requires Interleaves(log, runs) && log != []
    ensures Interleaves(log[..|log| - 1], runs)
  {
    forall i | 0 <= i < |runs| ensures Emitted(log[..|log| - 1], i) <= Emissions(runs[i]) {
      assert Emitted(log[..|log| - 1], i) <= Emitted(log, i) <= Emissions(runs[i]);
    }
  }

  /** In every interleaving of any number of runs, failed and repaired ones included,
      a run's derived thread is there from its first event on, running exactly from its
      second event to the one before completion, idle from then on. */
  lemma {:induction false} ThreadsFollowRuns(sess: Session, log: seq<Entry>, runs: seq<Run>, i: nat)
    requires FreshThreads(runs) && Interleaves(log, runs) && i < |runs|
    requires forall entry | entry in log && Outsider(entry, runs) :: !Names(entry.event, runs[i].threadId)
    ensures Follows(Lookup(Derive(sess, log), runs[i].threadId), runs[i], |Emitted(log, i)|, |Emissions(runs[i])|)
  {
    if log != [] {
      var init, last, tid := log[..|log| - 1], log[|log| - 1], runs[i].threadId;
      EarlierInterleaves(log, runs);
      ThreadsFollowRuns(sess, init, runs, i);
      var threads := Derive(sess, init);
      if Outsider(last, runs) {
        assert last in log;
        ApplyOther(threads, last, tid);
      } else {
        var r, n := runs[last.run], |Emitted(init, last.run)|;
        assert Emissions(r)[n] == Emitted(log, last.run)[n];
        RunShape(r, tid, n);
        if last.run == i {
          FollowsStep(Lookup(threads, tid), r, n, last);
        }
        if Names(last.event, tid) {
          ApplyOwn(threads, last, tid);
        } else {
          ApplyOther(threads, last, tid);
        }
      }
    }
  }

  // ---- one result for each delegation -----------------------------------------------------

  predicate Mentions(e: Event, toolId: string) {
    (e.body.Delegation? && e.body.id == toolId) || (e.body.DelegationResult? && e.body.toolUseId == toolId)
  }

  function Trail(toolId: string): Entry -> seq<Event> {
    (entry: Entry) => if Mentions(entry.event, toolId) then [entry.event] else []
  }

  ghost predicate FreshTools(runs: seq<Run>) {
    && (forall i, j | 0 <= i < j < |runs| :: runs[i].toolId != runs[j].toolId)
    && forall i, j, k: nat, e | 0 <= i < |runs| && 0 <= j < |runs| && e in runs[i].turns(k).emitted ::
         !Mentions(e, runs[j].toolId)
  }

  lemma {:induction false} TurnsSilent(r: Run, toolId: string, k: nat)
    requires forall k: nat, e | e in r.turns(k).emitted :: !Mentions(e, toolId)
    ensures forall e | e in TurnEvents(r, k) :: !Mentions(e, toolId)
  {
    if k > 0 {
      TurnsSilent(r, toolId, k - 1);
    }
  }

  lemma ToolShape(r: Run, toolId: string, n: nat)
    requires n < |Emissions(r)| && forall k: nat, e | e in r.turns(k).emitted :: !Mentions(e, toolId)
    ensures
      var all := Emissions(r); var m := |all|;
      && m >= 7
      && (Mentions(all[n], toolId) <==> r.toolId == toolId && (n == 2 || n == m - 3))
      && (n == 2 ==> all[n] == Opening(r)[2]) && (n == m - 3 ==> all[n] == Closing(r)[0])
  {
    var turns := TurnEvents(r, Ended(r).taken);
    TurnsSilent(r, toolId, Ended(r).taken);
    var all, m := Emissions(r), |Emissions(r)|;
    if n < 4 {
      assert all[n] == Opening(r)[n];
    } else if n < m - 3 {
      assert all[n] == turns[n - 4];
      assert all[n] in turns;
    } else {
      assert all[n] == Closing(r)[n - (m - 3)];
    }
  }

  /** The tool use and result of a run of which n of m events are in the log. */
  function PairUpTo(r: Run, n: nat): seq<Event> {
    if n <= 2 then [] else if n <= |Emissions(r)| - 3 then [Opening(r)[2]] else [Opening(r)[2], Closing(r)[0]]
  }

  /** On the primary thread every run leaves its tool use and then exactly one matching
      result, which is an error exactly when the run failed. */
  lemma {:induction false} OneResultEach(log: seq<Entry>, runs: seq<Run>, i: nat)
    requires FreshTools(runs) && Interleaves(log, runs) && i < |runs|
    requires forall entry | entry in log && Outsider(entry, runs) :: !Mentions(entry.event, runs[i].toolId)
    ensures Gather(Trail(runs[i].toolId), log) == PairUpTo(runs[i], |Emitted(log, i)|)
  {
    if log != [] {
      var init, last, r := log[..|log| - 1], log[|log| - 1], runs[i];
      EarlierInterleaves(log, runs);
      OneResultEach(init, runs, i);
      if Outsider(last, runs) {
        assert last in log;
      } else {
        var n := |Emitted(init, last.run)|;
        assert Emissions(runs[last.run])[n] == Emitted(log, last.run)[n];
        ToolShape(runs[last.run], r.toolId, n);
      }
    }
  }
}
