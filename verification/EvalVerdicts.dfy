/** Which trials of an eval run pass, which fail, and with what error. */
module EvalVerdicts {
  import opened Text
  import opened EvalState
  import opened EvalCodec
  import opened EvalWorker
  import opened EvalTrials
  import opened EvalRuns
  import opened EvalHistory
  import Folds

  // ---- one step --------------------------------------------------------------------

  /** Nothing to judge: there is no rubric, or it says nothing. */
  predicate Unjudged(spec: TaskSpec) {
    match spec.rubric
    case None => true
    case Some(rubric) => rubric.description == ""
  }

  predicate InTime(t: Trial, a: Answer) { t.startedAt == "" || a.late.None? }

  /** A running trial that was sent all its messages is found idle and in time. */
  predicate Finishes(spec: TaskSpec, t: Trial, a: Answer) {
    && t.status == Running && t.sessionId != "" && spec.messages != [] && t.messageIndex + 1 >= |spec.messages|
    && InTime(t, a) && a.idle
  }

  /** It passes when there is nothing to judge or the judge is satisfied. */
  predicate Passes(spec: TaskSpec, t: Trial, a: Answer) {
    Finishes(spec, t, a) && (Unjudged(spec) || a.verdict == Satisfied)
  }

  const NO_MESSAGES := "task has no messages"
  const NOT_SATISFIED := "rubric not satisfied"

  /** The error a trial fails with in this tick, if it fails. */
  function FailsWith(spec: TaskSpec, t: Trial, a: Answer): Option<string> {
    match t.status
    case Pending =>
      if spec.messages == [] then Some(NO_MESSAGES)
      else if a.createError.Some? then a.createError
      else a.sendError
    case Running =>
      if spec.messages == [] then Some(NO_MESSAGES)
      else if !InTime(t, a) then a.late
      else if !a.idle then None
      else if t.messageIndex + 1 < |spec.messages| then a.sendError
      else if Unjudged(spec) then None
      else
        (match a.verdict
         case Satisfied => None
         case Unsatisfied(feedback) => Some(if feedback == "" then NOT_SATISFIED else feedback)
         case JudgeFailed(error) => Some(error))
    case _ => None
  }

  /** What a tick makes of a trial: it passes with full reward, fails with its error, and
      does so for the first time, or neither. */
  lemma StepFate(ids: Ids, spec: TaskSpec, i: nat, j: nat, t: Trial, a: Answer, w: World)
    requires Sound(t)
    ensures
      var t' := AdvanceTrial(ids, spec, i, j, t, a, w).trial;
      && (t'.status.Completed? <==> t.status.Completed? || Passes(spec, t, a))
      && (t'.status.Failed? <==> t.status.Failed? || FailsWith(spec, t, a).Some?)
      && (Passes(spec, t, a) ==> t'.reward == 1.0 && t'.trajectoryId == "tr-" + t.sessionId && t'.endedAt == a.now)
      && (FailsWith(spec, t, a).Some? ==> t'.error == FailsWith(spec, t, a).value && t'.endedAt == a.now)
      && (Terminal(t.status) ==> t' == t)
  {
  }

  // ---- one tick of a run -----------------------------------------------------------

  lemma TrialTurn(step: TrialStep, trials: seq<Trial>, n: nat, w: World, j: nat)
    requires j < n <= |trials|
    ensures
      var all := AdvanceTrials(step, trials, n, w).trials;
      |all| == n && all[j] == step(j, trials[j], AdvanceTrials(step, trials, j, w).world).trial
  {
    TrialsGoOn(step, trials, j + 1, n, w);
    TrialsGoOn(step, trials, j, j + 1, w);
  }

  /** What a task's trial becomes in its turn. */
  lemma TaskTrial(ids: Ids, i: nat, task: Task, tick: Tick, w: World, j: nat) returns (w': World)
    requires j < |task.trials|
    ensures
      var r := AdvanceTask(ids, i, task, tick, w);
      && |r.task.trials| == |task.trials|
      && r.task.trials[j] == AdvanceTrial(ids, task.spec, i, j, task.trials[j], tick(i, j), w').trial
  {
    var step := StepsOf(ids, task.spec, i, tick);
    TrialTurn(step, task.trials, |task.trials|, w, j);
    w' := AdvanceTrials(step, task.trials, j, w).world;
  }

  lemma PassTrial(ids: Ids, s: RunState, tick: Tick, w: World, i: nat, j: nat) returns (w': World)
    requires NeverRepeats(ids) && WorldOk(ids, w) && StateOk(w, s)
    requires i < |s.tasks| && j < |s.tasks[i].trials|
    ensures
      var ran := AdvanceTasks(TaskStepsOf(ids, tick), s.tasks, |s.tasks|, w);
      && |ran.tasks| == |s.tasks| && |ran.tasks[i].trials| == |s.tasks[i].trials|
      && ran.tasks[i].trials[j]
         == AdvanceTrial(ids, s.tasks[i].spec, i, j, s.tasks[i].trials[j], tick(i, j), w').trial
  {
    var step, task := TaskStepsOf(ids, tick), s.tasks[i];
    TurnOf(step, s.tasks, |s.tasks|, w, i);
    var before := AdvanceTasks(step, s.tasks, i, w).world;
    if Open(task.status) {
      w' := TaskTrial(ids, i, task, tick, before, j);
    } else {
      assert TaskOk(w, i, task);
      TaskDone(w, i, task);
      AheadCounts(w, task.spec, i, task.trials);
      w' := w;
    }
  }

  /** A trial after one tick of its run is what its own step made of it. */
  lemma TickTrial(ids: Ids, row: Row, tick: Tick, w: World, i: nat, j: nat) returns (w': World)
    requires NeverRepeats(ids) && RowOk(ids, w, row)
    requires i < |Stored(row).tasks| && j < |Stored(row).tasks[i].trials|
    ensures
      var r, task := AdvanceRow(ids, row, tick, w), Stored(row).tasks[i];
      && Parse(r.row.status, r.row.results).Some?
      && i < |Stored(r.row).tasks| && j < |Stored(r.row).tasks[i].trials|
      && Stored(r.row).tasks[i].trials[j]
         == AdvanceTrial(ids, task.spec, i, j, task.trials[j], tick(i, j), w').trial
  {
    var s := Stored(row);
    if Terminal(row.status) {
      NothingAhead(w, s.tasks, i);
      assert TaskOk(w, i, s.tasks[i]);
      AheadCounts(w, s.tasks[i].spec, i, s.tasks[i].trials);
      w' := w;
    } else {
      OpenTick(ids, row, tick, w);
      PassGood(ids, s, tick, w);
      w' := PassTrial(ids, s, tick, w, i, j);
      var ran := AdvanceTasks(TaskStepsOf(ids, tick), s.tasks, |s.tasks|, w);
      var s' := Pass(s, ran.tasks);
      StateStored(ran.world, s', FinalStatus(s'));
      StateStored(ran.world, s', Running);
    }
  }

  // ---- whole histories ------------------------------------------------------------

  function TrialIn(row: Row, i: nat, j: nat): Option<Trial> {
    match Parse(row.status, row.results)
    case None => None
    case Some(s) => if i < |s.tasks| && j < |s.tasks[i].trials| then Some(s.tasks[i].trials[j]) else None
  }

  /** The trial after some ticks of a created run. */
  function TrialAfter(ids: Ids, requests: seq<Request>, ticks: seq<Tick>, i: nat, j: nat): Option<Trial> {
    TrialIn(After(ids, InitialRow(requests), ticks).row, i, j)
  }

  /** The k-th tick finds the trial passing. */
  predicate PassesAt(ids: Ids, requests: seq<Request>, ticks: seq<Tick>, i: nat, j: nat, k: nat)
    requires i < |requests|
  {
    && k < |ticks| && TrialAfter(ids, requests, ticks[..k], i, j).Some?
    && Passes(FreshSpec(requests[i]), TrialAfter(ids, requests, ticks[..k], i, j).value, ticks[k](i, j))
  }

  predicate FailsAt(ids: Ids, requests: seq<Request>, ticks: seq<Tick>, i: nat, j: nat, k: nat, error: string)
    requires i < |requests|
  {
    && k < |ticks| && TrialAfter(ids, requests, ticks[..k], i, j).Some?
    && FailsWith(FreshSpec(requests[i]), TrialAfter(ids, requests, ticks[..k], i, j).value, ticks[k](i, j))
       == Some(error)
  }

  ghost predicate SomeBelow(p: nat -> bool, n: nat) { exists k: nat :: k < n && p(k) }

  lemma SomeMore(p: nat -> bool, q: nat -> bool, n: nat)
    requires forall k: nat | k < n :: p(k) <==> q(k)
    ensures SomeBelow(p, n + 1) <==> SomeBelow(q, n) || p(n)
  {
    if SomeBelow(q, n) {
      var k: nat :| k < n && q(k);
      assert p(k);
    }
  }

  /** Some of the ticks finds the trial passing. */
  ghost predicate Passed(ids: Ids, requests: seq<Request>, ticks: seq<Tick>, i: nat, j: nat)
    requires i < |requests|
  {
    SomeBelow((k: nat) => PassesAt(ids, requests, ticks, i, j, k), |ticks|)
  }

  /** Some of the ticks fails the trial with the error. */
  ghost predicate FailedFor(ids: Ids, requests: seq<Request>, ticks: seq<Tick>, i: nat, j: nat, error: string)
    requires i < |requests|
  {
    SomeBelow((k: nat) => FailsAt(ids, requests, ticks, i, j, k, error), |ticks|)
  }

  /** A trial and the one that a step makes of it. */
  predicate Steps(ids: Ids, spec: TaskSpec, i: nat, j: nat, before: Option<Trial>, a: Answer, w: World,
        after: Option<Trial>)
  {
    && before.Some? && Sound(before.value)
    && after == Some(AdvanceTrial(ids, spec, i, j, before.value, a, w).trial)
  }

  predicate Sound(t: Trial) {
    !t.status.Unknown? && (t.status.Running? ==> t.sessionId != "" && t.messageIndex >= 0)
  }

  /** One tick of a consistent run makes one step of the trial. */
  lemma RowSteps(ids: Ids, h: History, tick: Tick, spec: TaskSpec, i: nat, j: nat) returns (w: World)
    requires NeverRepeats(ids) && Good(ids, h)
    requires i < |Stored(h.row).tasks| && j < |Stored(h.row).tasks[i].trials| && Stored(h.row).tasks[i].spec == spec
    ensures Steps(ids, spec, i, j, TrialIn(h.row, i, j), tick(i, j), w,
                  TrialIn(AdvanceRow(ids, h.row, tick, h.world).row, i, j))
  {
    w := TickTrial(ids, h.row, tick, h.world, i, j);
    assert TaskOk(h.world, i, Stored(h.row).tasks[i]);
    assert TrialOk(h.world, Stored(h.row).tasks[i].spec, i, j, Stored(h.row).tasks[i].trials[j]);
  }

  lemma NextTrial(ids: Ids, requests: seq<Request>, ticks: seq<Tick>, i: nat, j: nat) returns (w: World)
    requires NeverRepeats(ids) && i < |requests| && j < TrialCount(requests[i]) && ticks != []
    ensures
      var n := |ticks| - 1;
      Steps(ids, FreshSpec(requests[i]), i, j, TrialAfter(ids, requests, ticks[..n], i, j), ticks[n](i, j), w,
            TrialAfter(ids, requests, ticks, i, j))
  {
    var n := |ticks| - 1;
    Created(ids, requests);
    AlwaysGood(ids, InitialRow(requests), ticks[..n]);
    RequestsKept(ids, requests, ticks[..n], i);
    w := RowSteps(ids, After(ids, InitialRow(requests), ticks[..n]), ticks[n], FreshSpec(requests[i]), i, j);
  }

  lemma FirstTrial(ids: Ids, requests: seq<Request>, i: nat, j: nat)
    requires i < |requests| && j < TrialCount(requests[i])
    ensures TrialIn(InitialRow(requests), i, j) == Some(FreshTrial(j))
  {
    FirstTasks(ids, requests);
    GatherFresh(requests, i);
  }

  lemma FirstTasks(ids: Ids, requests: seq<Request>)
    ensures Parse(Pending, InitialDoc(requests)).Some?
    ensures Parse(Pending, InitialDoc(requests)).value.tasks == Folds.Gather(EvalHistory.Fresh, requests)
  {
    Created(ids, requests);
  }

  lemma GatherFresh(requests: seq<Request>, i: nat)
    requires i < |requests|
    ensures |Folds.Gather(EvalHistory.Fresh, requests)| == |requests|
    ensures Folds.Gather(EvalHistory.Fresh, requests)[i] == FreshTask(requests[i])
  {
    Folds.GatherEach(EvalHistory.Fresh, requests);
  }

  /** In every reachable state a trial is completed, and then with full reward, exactly if
      some earlier tick found it passing. */
  lemma {:induction false} CompletedExactly(ids: Ids, requests: seq<Request>, ticks: seq<Tick>, i: nat, j: nat)
    requires NeverRepeats(ids) && i < |requests| && j < TrialCount(requests[i])
    ensures
      var t := TrialAfter(ids, requests, ticks, i, j);
      && t.Some?
      && (t.value.status.Completed? <==> Passed(ids, requests, ticks, i, j))
      && (t.value.status.Completed? ==> t.value.reward == 1.0)
  {
    if ticks == [] {
      FirstTrial(ids, requests, i, j);
    } else {
      var n, spec := |ticks| - 1, FreshSpec(requests[i]);
      CompletedExactly(ids, requests, ticks[..n], i, j);
      var w := NextTrial(ids, requests, ticks, i, j);
      var t := TrialAfter(ids, requests, ticks[..n], i, j).value;
      StepFate(ids, spec, i, j, t, ticks[n](i, j), w);
      PassedMore(ids, requests, ticks, i, j);
    }
  }

  lemma PassedMore(ids: Ids, requests: seq<Request>, ticks: seq<Tick>, i: nat, j: nat)
    requires i < |requests| && ticks != []
    ensures
      var n := |ticks| - 1;
      Passed(ids, requests, ticks, i, j) <==>
        Passed(ids, requests, ticks[..n], i, j) || PassesAt(ids, requests, ticks, i, j, n)
  {
    var n := |ticks| - 1;
    var p := (k: nat) => PassesAt(ids, requests, ticks, i, j, k);
    var q := (k: nat) => PassesAt(ids, requests, ticks[..n], i, j, k);
    forall k: nat | k < n ensures p(k) <==> q(k) {
      SamePasses(ids, requests, ticks, i, j, k);
    }
    SomeMore(p, q, n);
  }

  lemma SamePasses(ids: Ids, requests: seq<Request>, ticks: seq<Tick>, i: nat, j: nat, k: nat)
    requires i < |requests| && k < |ticks| - 1
    ensures
      var init := ticks[..|ticks| - 1];
      PassesAt(ids, requests, ticks, i, j, k) <==> PassesAt(ids, requests, init, i, j, k)
  {
    assert ticks[..|ticks| - 1][..k] == ticks[..k];
  }

  lemma SameFails(ids: Ids, requests: seq<Request>, ticks: seq<Tick>, i: nat, j: nat, k: nat, error: string)
    requires i < |requests| && k < |ticks| - 1
    ensures
      var init := ticks[..|ticks| - 1];
      FailsAt(ids, requests, ticks, i, j, k, error) <==> FailsAt(ids, requests, init, i, j, k, error)
  {
    assert ticks[..|ticks| - 1][..k] == ticks[..k];
  }

  /** It is failed with an error exactly if some earlier tick failed it with that error. */
  lemma {:induction false} FailedExactly(ids: Ids, requests: seq<Request>, ticks: seq<Tick>, i: nat, j: nat,
        error: string)
    requires NeverRepeats(ids) && i < |requests| && j < TrialCount(requests[i])
    ensures
      var t := TrialAfter(ids, requests, ticks, i, j);
      && t.Some?
      && (t.value.status.Failed? && t.value.error == error <==>
            FailedFor(ids, requests, ticks, i, j, error))
  {
    if ticks == [] {
      FirstTrial(ids, requests, i, j);
    } else {
      var n, spec := |ticks| - 1, FreshSpec(requests[i]);
      FailedExactly(ids, requests, ticks[..n], i, j, error);
      var w := NextTrial(ids, requests, ticks, i, j);
      var t := TrialAfter(ids, requests, ticks[..n], i, j).value;
      StepFate(ids, spec, i, j, t, ticks[n](i, j), w);
      FailedMore(ids, requests, ticks, i, j, error);
    }
  }

  lemma FailedMore(ids: Ids, requests: seq<Request>, ticks: seq<Tick>, i: nat, j: nat, error: string)
    requires i < |requests| && ticks != []
    ensures
      var n := |ticks| - 1;
      FailedFor(ids, requests, ticks, i, j, error) <==>
        FailedFor(ids, requests, ticks[..n], i, j, error) || FailsAt(ids, requests, ticks, i, j, n, error)
  {
    var n := |ticks| - 1;
    var p := (k: nat) => FailsAt(ids, requests, ticks, i, j, k, error);
    var q := (k: nat) => FailsAt(ids, requests, ticks[..n], i, j, k, error);
    forall k: nat | k < n ensures p(k) <==> q(k) {
      SameFails(ids, requests, ticks, i, j, k, error);
    }
    SomeMore(p, q, n);
  }

  /** A created task is judged exactly if its request's rubric says something. */
  lemma RequestJudged(r: Request)
    ensures Unjudged(FreshSpec(r)) <==> r.rubric.None? || r.rubric.value.description == ""
  {
    if r.rubric.Some? {
      NoBlankCriterion(List(MarshalRubric(r.rubric).criteria));
    }
  }
}
