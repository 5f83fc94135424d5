/** What a run's row says of its tasks, told from their trials, and since when a trial
    runs. */
module EvalTallies {
  import opened Text
  import opened EvalState
  import opened EvalCodec
  import opened EvalWorker
  import opened EvalRuns
  import opened EvalHistory
  import opened EvalVerdicts

  // ---- the tally of a task ------------------------------------------------------------

  function With(trials: seq<Trial>, status: Status): set<nat> {
    set j: nat | j < |trials| && trials[j].status == status
  }

  lemma {:induction false} CountIs(trials: seq<Trial>, status: Status)
    ensures CountTrials(trials, status) == |With(trials, status)|
  {
    if trials != [] {
      var n := |trials| - 1;
      CountIs(trials[..n], status);
      var own := if trials[n].status == status then {n} else {};
      assert With(trials, status) == With(trials[..n], status) + own;
    }
  }

  /** The first error that any of the trials has, "" when none. */
  ghost predicate FirstErrorIs(trials: seq<Trial>, error: string) {
    || (error == "" && forall t | t in trials :: t.error == "")
    || exists k: nat :: HasFirst(trials, error, k)
  }

  ghost predicate HasFirst(trials: seq<Trial>, error: string, k: nat) {
    k < |trials| && trials[k].error == error != "" && forall j: nat | j < k :: trials[j].error == ""
  }

  lemma {:induction false} FirstFound(trials: seq<Trial>)
    ensures FirstError(trials) != Some("")
    ensures FirstErrorIs(trials, match FirstError(trials) case None => "" case Some(error) => error)
  {
    if trials != [] {
      if trials[0].error != "" {
        assert HasFirst(trials, trials[0].error, 0);
      } else {
        FirstFound(trials[1..]);
        assert trials == [trials[0]] + trials[1..];
        if FirstError(trials[1..]).Some? {
          LaterFirst(trials, FirstError(trials[1..]).value);
        }
      }
    }
  }

  lemma LaterFirst(trials: seq<Trial>, error: string)
    requires trials != [] && trials[0].error == "" && error != "" && FirstErrorIs(trials[1..], error)
    ensures FirstErrorIs(trials, error)
  {
    var k: nat :| HasFirst(trials[1..], error, k);
    assert HasFirst(trials, error, k + 1);
  }

  /** A task shows how many trials it has and how many of them completed; it completed when
      all did, and failed, with the first error of any, when all ended and not all
      completed. */
  ghost predicate Tallied(task: Task) {
    && task.trialTotal == |task.trials| && task.passCount == |With(task.trials, Completed)|
    && (task.status == Completed <==> forall t | t in task.trials :: t.status == Completed)
    && (task.status == Failed <==>
          && (forall t | t in task.trials :: t.status == Completed || t.status == Failed)
          && exists t | t in task.trials :: t.status == Failed)
    && (task.status == Completed || task.status == Failed || task.status == Running || task.status == Pending)
    && (if task.status == Failed then FirstErrorIs(task.trials, task.error) else task.error == "")
  }

  lemma {:induction false} AllCounted(trials: seq<Trial>, status: Status)
    ensures CountTrials(trials, status) <= |trials|
    ensures CountTrials(trials, status) == |trials| <==> forall t | t in trials :: t.status == status
  {
    if trials != [] {
      var n := |trials| - 1;
      AllCounted(trials[..n], status);
      assert trials == trials[..n] + [trials[n]];
    }
  }

  /** Together they are all exactly when every trial ended. */
  lemma {:induction false} BothCounted(trials: seq<Trial>)
    ensures CountTrials(trials, Completed) + CountTrials(trials, Failed) <= |trials|
    ensures CountTrials(trials, Completed) + CountTrials(trials, Failed) == |trials| <==>
      forall t | t in trials :: t.status == Completed || t.status == Failed
  {
    if trials != [] {
      var n := |trials| - 1;
      BothCounted(trials[..n]);
      assert trials == trials[..n] + [trials[n]];
    }
  }

  lemma RecountTallies(task: Task)
    requires task.trials != [] && task.error == ""
    ensures Tallied(Recount(task))
  {
    CountIs(task.trials, Completed);
    AllCounted(task.trials, Completed);
    BothCounted(task.trials);
    FirstFound(task.trials);
    assert task.trials[0] in task.trials;
  }

  lemma FreshTallies(r: Request)
    ensures Tallied(FreshTask(r))
  {
    var task := FreshTask(r);
    assert With(task.trials, Completed) == {};
    assert task.trials[0] in task.trials;
  }

  // ---- over whole histories -----------------------------------------------------------

  /** A task after one tick of its run: recounted with its trials' next steps as long as it
      is open, else as it was. */
  lemma TickTask(ids: Ids, row: Row, tick: Tick, w: World, i: nat) returns (w': World)
    requires NeverRepeats(ids) && RowOk(ids, w, row) && i < |Stored(row).tasks|
    ensures
      var r, task := AdvanceRow(ids, row, tick, w), Stored(row).tasks[i];
      && Parse(r.row.status, r.row.results).Some? && i < |Stored(r.row).tasks|
      && (Stored(r.row).tasks[i] == task
          || (Open(task.status) && Stored(r.row).tasks[i] == AdvanceTask(ids, i, task, tick, w').task))
  {
    w' := w;
    if !Terminal(row.status) {
      var s, step := Stored(row), TaskStepsOf(ids, tick);
      OpenTick(ids, row, tick, w);
      PassGood(ids, s, tick, w);
      TurnOf(step, s.tasks, |s.tasks|, w, i);
      w' := AdvanceTasks(step, s.tasks, i, w).world;
      var ran := AdvanceTasks(step, s.tasks, |s.tasks|, w);
      StoredTasks(ids, row, tick, w, ran);
    }
  }

  lemma StoredTasks(ids: Ids, row: Row, tick: Tick, w: World, ran: Ran)
    requires NeverRepeats(ids) && RowOk(ids, w, row) && !Terminal(row.status)
    requires ran == AdvanceTasks(TaskStepsOf(ids, tick), Stored(row).tasks, |Stored(row).tasks|, w)
    ensures
      var r := AdvanceRow(ids, row, tick, w);
      Parse(r.row.status, r.row.results).Some? && Stored(r.row).tasks == ran.tasks
  {
    var s := Stored(row);
    OpenTick(ids, row, tick, w);
    PassGood(ids, s, tick, w);
    var s' := Pass(s, ran.tasks);
    StateStored(ran.world, s', FinalStatus(s'));
    StateStored(ran.world, s', Running);
  }

  lemma StepTallies(ids: Ids, i: nat, task: Task, tick: Tick, w: World)
    requires Tallied(task) && Open(task.status) && task.trials != []
    ensures Tallied(AdvanceTask(ids, i, task, tick, w).task)
  {
    var done := AdvanceTrials(StepsOf(ids, task.spec, i, tick), task.trials, |task.trials|, w);
    TrialTurn(StepsOf(ids, task.spec, i, tick), task.trials, |task.trials|, w, 0);
    RecountTallies(task.(trials := done.trials));
  }

  /** In every reachable state every task shows the tally of its trials. */
  lemma {:induction false} Tallies(ids: Ids, requests: seq<Request>, ticks: seq<Tick>, i: nat)
    requires NeverRepeats(ids) && i < |requests|
    ensures
      var row := After(ids, InitialRow(requests), ticks).row;
      && Parse(row.status, row.results).Some? && i < |Stored(row).tasks|
      && Tallied(Stored(row).tasks[i])
  {
    Created(ids, requests);
    if ticks == [] {
      GatherFresh(requests, i);
      FreshTallies(requests[i]);
    } else {
      var n := |ticks| - 1;
      var h := After(ids, InitialRow(requests), ticks[..n]);
      Tallies(ids, requests, ticks[..n], i);
      AlwaysGood(ids, InitialRow(requests), ticks[..n]);
      var task := Stored(h.row).tasks[i];
      assert TaskOk(h.world, i, task);
      var w := TickTask(ids, h.row, ticks[n], h.world, i);
      if Open(task.status) {
        StepTallies(ids, i, task, ticks[n], w);
      }
    }
  }

  /** In every reachable state the run has a task for every request, under its id, with as
      many trials as asked for and at least one. */
  lemma TasksAsAsked(ids: Ids, requests: seq<Request>, ticks: seq<Tick>, i: nat)
    requires NeverRepeats(ids) && i < |requests|
    ensures
      var row := After(ids, InitialRow(requests), ticks).row;
      && Parse(row.status, row.results).Some?
      && var s := Stored(row);
      && s.taskCount == |s.tasks| == |requests|
      && s.tasks[i].spec.id == requests[i].id && s.tasks[i].spec.messages == requests[i].messages
      && s.tasks[i].spec.timeoutMs == requests[i].timeoutMs
      && |s.tasks[i].trials| == if requests[i].trials > 1 then requests[i].trials else 1
  {
    Created(ids, requests);
    AlwaysGood(ids, InitialRow(requests), ticks);
    RequestsKept(ids, requests, ticks, i);
    FreshSpecOk(requests[i]);
    IntTrip(requests[i].timeoutMs);
  }

  // ---- since when a trial runs ----------------------------------------------------------

  /** The k-th tick found the trial pending and started it. */
  predicate StartedAt(ids: Ids, requests: seq<Request>, ticks: seq<Tick>, i: nat, j: nat, k: nat) {
    && k < |ticks|
    && match (TrialAfter(ids, requests, ticks[..k], i, j), TrialAfter(ids, requests, ticks[..k + 1], i, j))
       case (Some(before), Some(after)) => before.status == Pending && after.status == Running
       case (_, _) => false
  }

  ghost predicate StartedWhen(ids: Ids, requests: seq<Request>, ticks: seq<Tick>, i: nat, j: nat, start: string) {
    exists k: nat :: StartedAt(ids, requests, ticks, i, j, k) && ticks[k](i, j).now == start
  }

  lemma StepStarts(ids: Ids, spec: TaskSpec, i: nat, j: nat, t: Trial, a: Answer, w: World)
    requires Sound(t)
    ensures
      var t' := AdvanceTrial(ids, spec, i, j, t, a, w).trial;
      && t'.index == t.index
      && (t'.status.Running? ==> t.status.Running? || t.status.Pending?)
      && (t'.status.Running? && t.status.Pending? ==> t'.startedAt == a.now)
      && (t'.status.Running? && t.status.Running? ==> t'.startedAt == t.startedAt && t'.sessionId == t.sessionId)
  {
  }

  lemma SameStart(ids: Ids, requests: seq<Request>, ticks: seq<Tick>, init: seq<Tick>, i: nat, j: nat, k: nat)
    requires init <= ticks && StartedAt(ids, requests, init, i, j, k)
    ensures StartedAt(ids, requests, ticks, i, j, k) && init[k] == ticks[k]
  {
    assert init[..k] == ticks[..k] && init[..k + 1] == ticks[..k + 1];
  }

  lemma StartedBefore(ids: Ids, requests: seq<Request>, ticks: seq<Tick>, init: seq<Tick>, i: nat, j: nat,
        start: string)
    requires init <= ticks && StartedWhen(ids, requests, init, i, j, start)
    ensures StartedWhen(ids, requests, ticks, i, j, start)
  {
    var k: nat :| StartedAt(ids, requests, init, i, j, k) && init[k](i, j).now == start;
    SameStart(ids, requests, ticks, init, i, j, k);
  }

  /** In every reachable state a trial has the position it was created with, and a running
      one the time of the tick that started it. */
  lemma {:induction false} RunningSince(ids: Ids, requests: seq<Request>, ticks: seq<Tick>, i: nat, j: nat)
    requires NeverRepeats(ids) && i < |requests| && j < TrialCount(requests[i])
    ensures
      var t := TrialAfter(ids, requests, ticks, i, j);
      && t.Some? && t.value.index == j
      && (t.value.status.Running? ==> StartedWhen(ids, requests, ticks, i, j, t.value.startedAt))
  {
    if ticks == [] {
      FirstTrial(ids, requests, i, j);
    } else {
      var n := |ticks| - 1;
      RunningSince(ids, requests, ticks[..n], i, j);
      var w := NextTrial(ids, requests, ticks, i, j);
      var before := TrialAfter(ids, requests, ticks[..n], i, j).value;
      var after := TrialAfter(ids, requests, ticks, i, j).value;
      StepStarts(ids, FreshSpec(requests[i]), i, j, before, ticks[n](i, j), w);
      if after.status.Running? {
        if before.status.Running? {
          StartedBefore(ids, requests, ticks, ticks[..n], i, j, after.startedAt);
        } else {
          assert ticks[..n + 1] == ticks;
          assert StartedAt(ids, requests, ticks, i, j, n);
        }
      }
    }
  }

  // ---- rows that cannot be read ------------------------------------------------------------

  /** A row whose results are no JSON object is marked failed and keeps them; if even that
      write fails, it stays as it was. */
  lemma UnreadableRow(ids: Ids, row: Row, tick: Tick, writes: Writes, w: World)
    requires row.results == Invalid
    ensures TickRow(ids, row, tick, writes, w).world == w
    ensures TickRow(ids, row, tick, writes, w).row ==
      if writes.marks then Row(Failed, Invalid, None, "json: cannot unmarshal") else row
  {
  }
}
