/** What the log says of a sub-agent's run, told from what its sub-turns did. */
module SubAgentLaws {
  import opened Folds
  import opened Text
  import Assemble
  import opened Threads
  import opened SubAgentRun

  // ---- how a run ends ---------------------------------------------------------------

  predicate Raises(r: Run, k: nat) { r.turns(k).result.Raised? }

  /** The text of a sub-turn that returned. */
  function TextOf(r: Run, k: nat): string
    requires !Raises(r, k)
  {
    Assemble.LastText(Assemble.Segments(r.turns(k).result.events), PySpace)
  }

  /** It needs no repair: it returned, and what is asked of its text is there. */
  predicate Suffices(r: Run, k: nat) { !Raises(r, k) && (!r.schema || r.extract(TextOf(r, k)).Some?) }

  /** The text of the last of the first n sub-turns that returned. */
  function LastTextOf(r: Run, n: nat): string {
    if n == 0 then "" else if Raises(r, n - 1) then LastTextOf(r, n - 1) else TextOf(r, n - 1)
  }

  /** Sub-turns are taken until one raises or suffices, at most one more than repairs are
      allowed. */
  predicate Takes(r: Run, n: nat) {
    && 0 < n <= 1 + (if r.retries > 0 then r.retries else 0)
    && (forall k: nat | k < n - 1 :: !Raises(r, k) && !Suffices(r, k))
    && (Raises(r, n - 1) || Suffices(r, n - 1) || n == 1 + if r.retries > 0 then r.retries else 0)
  }

  /** The error of a run that took n sub-turns. */
  function ErrorOf(r: Run, n: nat): Option<string> {
    if n == 0 then None
    else
      match r.turns(n - 1).result
      case Raised(error) => Some(error)
      case Returned(_) =>
        if Suffices(r, n - 1) then None
        else Some("SubAgent '" + r.step + "' did not produce valid structured output after repair attempts")
  }

  function OutputOf(r: Run, text: string): Option<string> { if r.schema then r.extract(text) else None }

  /** One sub-turn and what comes of it. */
  lemma AttemptOnce(r: Run, left: nat, k: nat, text: string)
    ensures Attempts(r, left, k, text) ==
      if Raises(r, k) then Ending(k + 1, text, None, Some(r.turns(k).result.error))
      else if Suffices(r, k) then Ending(k + 1, TextOf(r, k), OutputOf(r, TextOf(r, k)), None)
      else if left == 0 then Ending(k + 1, TextOf(r, k), None, ErrorOf(r, k + 1))
      else Attempts(r, left - 1, k + 1, TextOf(r, k))
  {
  }

  ghost predicate EndsRight(r: Run, left: nat, k: nat, e: Ending) {
    && k < e.taken <= k + 1 + left
    && (forall m: nat | k <= m < e.taken - 1 :: !Raises(r, m) && !Suffices(r, m))
    && (Raises(r, e.taken - 1) || Suffices(r, e.taken - 1) || e.taken == k + 1 + left)
    && e.text == LastTextOf(r, e.taken) && e.error == ErrorOf(r, e.taken)
    && e.structured == if e.error.None? then OutputOf(r, e.text) else None
  }

  lemma {:induction false} AttemptsEnd(r: Run, left: nat, k: nat, text: string)
    requires text == LastTextOf(r, k)
    ensures EndsRight(r, left, k, Attempts(r, left, k, text))
    decreases left
  {
    AttemptOnce(r, left, k, text);
    if Raises(r, k) || Suffices(r, k) || left == 0 {
      EndsNow(r, left, k, text);
    } else {
      AttemptsEnd(r, left - 1, k + 1, TextOf(r, k));
      EndsLater(r, left, k, Attempts(r, left - 1, k + 1, TextOf(r, k)));
    }
  }

  lemma EndsNow(r: Run, left: nat, k: nat, text: string)
    requires text == LastTextOf(r, k) && (Raises(r, k) || Suffices(r, k) || left == 0)
    ensures EndsRight(r, left, k, Attempts(r, left, k, text))
  {
    AttemptOnce(r, left, k, text);
  }

  lemma EndsLater(r: Run, left: nat, k: nat, e: Ending)
    requires left > 0 && !Raises(r, k) && !Suffices(r, k) && EndsRight(r, left - 1, k + 1, e)
    ensures EndsRight(r, left, k, e)
  {
    forall m: nat | k <= m < e.taken - 1 ensures !Raises(r, m) && !Suffices(r, m) {
    }
  }

  lemma TakesOnce(r: Run, m: nat, n: nat)
    requires Takes(r, m) && Takes(r, n)
    ensures m == n
  {
  }

  /** A run takes sub-turns as long as it must and may; its text is the last one returned,
      its error the raised one or the missing output. */
  lemma RunEnds(r: Run)
    ensures
      var e := Ended(r);
      && Takes(r, e.taken) && e.text == LastTextOf(r, e.taken) && e.error == ErrorOf(r, e.taken)
      && e.structured == if e.error.None? then OutputOf(r, e.text) else None
  {
    AttemptsEnd(r, Retries(r), 0, "");
  }

  /** Some sub-turn raised, or a schema was asked for and no text has valid output. */
  ghost predicate Fails(r: Run, n: nat) {
    || (exists k: nat :: k < n && Raises(r, k))
    || (r.schema && forall k: nat | k < n && !Raises(r, k) :: r.extract(TextOf(r, k)).None?)
  }

  lemma FailsExactly(r: Run, n: nat)
    requires Takes(r, n)
    ensures ErrorOf(r, n).Some? <==> Fails(r, n)
  {
    if Raises(r, n - 1) {
      assert n - 1 < n;
    } else if Suffices(r, n - 1) {
      assert forall k: nat | k < n :: !Raises(r, k);
    }
  }

  // ---- what it tells the log ----------------------------------------------------------

  function Cut(s: string, n: nat): string { if |s| > n then s[..n] else s }

  /** The first 500 characters of the last text, else the error. */
  function Told(r: Run, n: nat): string {
    var text := LastTextOf(r, n);
    if text != "" then Cut(text, 500)
    else
      match ErrorOf(r, n)
      case None => ""
      case Some(error) => error
  }

  const FAILURE := "Sub-agent failed"
  const SILENCE := "Sub-agent completed with no text output"

  /** The three closing events: the result of the delegation on the primary thread, and
      completion and idleness of the run's own. */
  lemma ClosingTells(r: Run, n: nat)
    requires Takes(r, n)
    ensures
      var told, failed := Told(r, n), ErrorOf(r, n).Some?;
      Closing(r) ==
      [Event("sthr_primary", DelegationResult(
         r.toolId, Cut(if told != "" then told else if failed then FAILURE else SILENCE, 8000), failed)),
       Event(r.threadId, SubAgentCompleted(
         "task_" + r.threadId[if |r.threadId| > 12 then |r.threadId| - 12 else 0..],
         r.agentId, if told != "" then told else SILENCE, failed)),
       Event(r.threadId, ThreadIdle)]
  {
    RunEnds(r);
    TakesOnce(r, n, Ended(r).taken);
    assert r.threadId[0..] == r.threadId;
  }

  predicate NamePlain(c: char) {
    ('a' as int <= c as int <= 'z' as int) || ('A' as int <= c as int <= 'Z' as int)
    || ('0' as int <= c as int <= '9' as int) || c == '_'
  }

  /** The four opening events: the thread and its start, the delegation on the primary
      thread, and the prompt. The tool is named after the agent, other characters than
      letters, digits and underscores replaced. */
  lemma OpeningTells(r: Run)
    ensures
      var tool := Opening(r)[2].body.name;
      && Opening(r) ==
         [Event(r.threadId, ThreadCreated(
            r.agentId, r.agentName, if r.parentThread != "" then r.parentThread else "sthr_primary")),
          Event(r.threadId, SubAgentStarted(
            "task_" + r.threadId[if |r.threadId| > 12 then |r.threadId| - 12 else 0..], r.agentId, r.agentName)),
          Event("sthr_primary", Delegation(
            r.toolId, tool, r.prompt, if r.step != "" then r.step else "workflow-agent", r.threadId)),
          Event(r.threadId, UserMessage(r.prompt))]
      && |tool| == |"call_agent_"| + |r.agentId| && "call_agent_" <= tool
      && forall k: nat | k < |r.agentId| ::
           tool[|"call_agent_"| + k] == if NamePlain(r.agentId[k]) then r.agentId[k] else '_'
  {
    assert r.threadId[0..] == r.threadId;
  }

  /** Everything the first n sub-turns emit, in order. */
  function Between(r: Run, n: nat): seq<Event> { if n == 0 then [] else Between(r, n - 1) + r.turns(n - 1).emitted }

  lemma {:induction false} BetweenTells(r: Run, n: nat)
    ensures TurnEvents(r, n) == Between(r, n)
  {
    if n > 0 {
      BetweenTells(r, n - 1);
    }
  }

  /** Between opening and closing come the sub-turns that were taken, in order. */
  lemma RunTells(r: Run, n: nat)
    requires Takes(r, n)
    ensures |Opening(r)| == 4 && |Closing(r)| == 3 && Emissions(r) == Opening(r) + Between(r, n) + Closing(r)
  {
    RunEnds(r);
    TakesOnce(r, n, Ended(r).taken);
    BetweenTells(r, n);
  }

  /** Once a run closed, the primary thread holds its call and one result for it, an error
      exactly if the run failed, whatever other runs did meanwhile. */
  lemma OneResultTold(log: seq<Entry>, runs: seq<Run>, i: nat, n: nat)
    requires FreshTools(runs) && Interleaves(log, runs) && i < |runs|
    requires forall entry | entry in log && Outsider(entry, runs) :: !Mentions(entry.event, runs[i].toolId)
    requires Emitted(log, i) == Emissions(runs[i]) && Takes(runs[i], n)
    ensures
      var r, trail := runs[i], Gather(Trail(runs[i].toolId), log);
      && |trail| == 2 && trail[0].tid == "sthr_primary" == trail[1].tid
      && trail[0].body.Delegation? && trail[0].body.id == r.toolId
      && trail[1].body.DelegationResult? && trail[1].body.toolUseId == r.toolId
      && (trail[1].body.isError <==> Fails(r, n))
      && trail[1].body.text
         == Cut(if Told(r, n) != "" then Told(r, n) else if Fails(r, n) then FAILURE else SILENCE, 8000)
  {
    var r := runs[i];
    OneResultEach(log, runs, i);
    RunTells(r, n);
    ClosingTells(r, n);
    OpeningTells(r);
    FailsExactly(r, n);
  }

  /** What the caller gets: the error, no text at all, or the text and the output. */
  lemma Concludes(r: Run, n: nat)
    requires Takes(r, n)
    ensures
      var text := LastTextOf(r, n);
      Concluded(Ended(r)) ==
      match ErrorOf(r, n)
      case Some(error) => Failed(error)
      case None =>
        if text == "" && OutputOf(r, text).None? then NoText("no assistant text in sub-turn events")
        else Finished(text, OutputOf(r, text))
  {
    RunEnds(r);
    TakesOnce(r, n, Ended(r).taken);
  }

  /** The sink's first refusal of one of the seven own events is that of the k-th. */
  ghost predicate RefusesFirst(r: Run, k: nat) {
    k < 7 && r.refuses(k).Some? && forall j: nat | j < k :: r.refuses(j).None?
  }

  lemma HeardUpTo(r: Run, k: nat, n: nat, m: nat)
    requires k <= m <= k + n && (forall j: nat | k <= j < m :: r.refuses(j).None?)
    requires m < k + n ==> r.refuses(m).Some?
    ensures Heard(r, k, n) == m - k
  {
    HeardAll(r, k, n);
  }

  /** Without a sink a run emits only what its sub-turns do. With one it emits its own
      events up to the first that is refused, and ends with that refusal; if it is one of
      the closing ones, the sub-turns came before. */
  lemma RefusalTells(r: Run, n: nat, k: nat)
    requires Takes(r, n)
    ensures !r.heard ==> Said(r) == Between(r, n) && Refusal(r) == Taken.Taken
    ensures r.heard && (forall j: nat | j < 7 :: r.refuses(j).None?) ==>
      Said(r) == Opening(r) + Between(r, n) + Closing(r) && Refusal(r) == Taken.Taken
    ensures r.heard && RefusesFirst(r, k) ==>
      && Refusal(r) == Refused(r.refuses(k).value)
      && Said(r) == if k < 4 then Opening(r)[..k] else Opening(r) + Between(r, n) + Closing(r)[..k - 4]
  {
    RunEnds(r);
    TakesOnce(r, n, Ended(r).taken);
    BetweenTells(r, n);
    if !r.heard {
      assert [] + Between(r, n) + [] == Between(r, n);
    } else if forall j: nat | j < 7 :: r.refuses(j).None? {
      HeardUpTo(r, 0, 4, 4);
      HeardUpTo(r, 4, 3, 7);
      assert Opening(r)[..4] == Opening(r) && Closing(r)[..3] == Closing(r);
    } else if RefusesFirst(r, k) {
      FirstRefusal(r, k);
    }
  }

  lemma FirstRefusal(r: Run, k: nat)
    requires r.heard && RefusesFirst(r, k)
    ensures Refusal(r) == Refused(r.refuses(k).value)
    ensures Said(r) ==
      if k < 4 then Opening(r)[..k] else Opening(r) + TurnEvents(r, Ended(r).taken) + Closing(r)[..k - 4]
  {
    if k < 4 {
      HeardUpTo(r, 0, 4, k);
    } else {
      HeardUpTo(r, 0, 4, 4);
      HeardUpTo(r, 4, 3, k);
      assert Opening(r)[..4] == Opening(r);
    }
  }
}
