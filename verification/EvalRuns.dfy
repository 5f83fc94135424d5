/** Whole eval runs: what every tick keeps, and what follows over any number of them. */
module EvalRuns {
  import opened EvalState
  import opened EvalWorker
  import opened EvalTrials

  // ---- one task -------------------------------------------------------------------

  /** Status and counts are those of the trials; a pending task has only pending
      trials. */
  ghost predicate TaskOk(w: World, i: nat, task: Task) {
    && TrialsOk(w, task.spec, i, task.trials) && task.trials != []
    && (task.spec.rubric.Some? ==> "" !in task.spec.rubric.value.criteria)
    && (if task.status.Pending?
        then task.passCount == 0 && task.trialTotal == |task.trials|
             && forall j | 0 <= j < |task.trials| :: task.trials[j].status.Pending?
        else Recount(task) == task)
  }

  function TaskAhead(task: Task): int { TotalAhead(task.spec, task.trials) }

  lemma RecountTwice(task: Task)
    ensures Recount(Recount(task)) == Recount(task)
  {
  }

  lemma TaskDone(w: World, i: nat, task: Task)
    requires TaskOk(w, i, task)
    ensures TaskAhead(task) >= 0
    ensures Terminal(task.status) <==> TaskAhead(task) == 0
    ensures task.status.Completed? ==> forall j | 0 <= j < |task.trials| :: task.trials[j].status.Completed?
    ensures Terminal(task.status) || Open(task.status)
  {
    AheadCounts(w, task.spec, i, task.trials);
    if task.status.Pending? {
      assert !Terminal(task.trials[0].status);
    }
  }

  lemma TaskKeeps(ids: Ids, i: nat, task: Task, tick: Tick, w: World)
    requires NeverRepeats(ids) && WorldOk(ids, w) && TaskOk(w, i, task)
    ensures
      var r := AdvanceTask(ids, i, task, tick, w);
      && TaskOk(r.world, i, r.task) && WorldOk(ids, r.world) && OtherTasksKept(w, r.world, i)
  {
    var n, step := |task.trials|, StepsOf(ids, task.spec, i, tick);
    StepsGood(ids, task.spec, i, tick);
    TrialsKeep(ids, task.spec, i, step, task.trials, n, w);
    var done := AdvanceTrials(step, task.trials, n, w);
    assert Mixed(step, task.trials, n, w) == done.trials;
    RecountTwice(task.(trials := done.trials));
  }

  lemma PendingProgress(ids: Ids, i: nat, task: Task, tick: Tick, w: World)
    requires NeverRepeats(ids) && WorldOk(ids, w) && TaskOk(w, i, task) && task.status.Pending?
    ensures AdvanceTask(ids, i, task, tick, w).progressed
  {
    var step := StepsOf(ids, task.spec, i, tick);
    StepsGood(ids, task.spec, i, tick);
    forall w' | TrialOk(w', task.spec, i, 0, task.trials[0]) ensures step(0, task.trials[0], w').progressed {
      assert ProgressesAt(task.spec, i, step, 0, task.trials[0], w');
    }
    TrialsTouched(ids, task.spec, i, step, task.trials, |task.trials|, w, 0);
  }

  /** A task progresses exactly when fewer steps lie ahead of it, and otherwise
      reassigning its status and counts changes nothing. */
  lemma TaskProgress(ids: Ids, i: nat, task: Task, tick: Tick, w: World)
    requires NeverRepeats(ids) && WorldOk(ids, w) && TaskOk(w, i, task)
    ensures
      var r := AdvanceTask(ids, i, task, tick, w);
      && (r.progressed ==> TaskAhead(r.task) < TaskAhead(task))
      && (!r.progressed ==> r.task == task && r.world == w)
  {
    var n, step := |task.trials|, StepsOf(ids, task.spec, i, tick);
    StepsGood(ids, task.spec, i, tick);
    EachNearer(ids, task.spec, i, step, task.trials, w);
    TrialsProgress(task.spec, step, task.trials, n, w);
    assert task.trials[..n] == task.trials;
    var done := AdvanceTrials(step, task.trials, n, w);
    if task.status.Pending? {
      PendingProgress(ids, i, task, tick, w);
    }
    if !done.progressed {
      assert task.(trials := done.trials) == task;
    }
  }

  /** Trials that cannot stand still: pending ones, and open ones whose session is idle. */
  predicate Moves(t: Trial, a: Answer) { t.status.Pending? || (!Terminal(t.status) && a.idle) }

  lemma TaskTouched(ids: Ids, i: nat, task: Task, tick: Tick, w: World, j: nat)
    requires NeverRepeats(ids) && WorldOk(ids, w) && TaskOk(w, i, task) && j < |task.trials|
    ensures
      var r := AdvanceTask(ids, i, task, tick, w);
      && |r.task.trials| == |task.trials| && r.task.spec == task.spec
      && (Terminal(task.trials[j].status) ==> r.task.trials[j] == task.trials[j])
      && (Moves(task.trials[j], tick(i, j)) ==> r.progressed)
  {
    var step := StepsOf(ids, task.spec, i, tick);
    StepsGood(ids, task.spec, i, tick);
    if Moves(task.trials[j], tick(i, j)) {
      forall w' | TrialOk(w', task.spec, i, j, task.trials[j]) ensures step(j, task.trials[j], w').progressed {
        TrialProgress(ids, task.spec, i, j, task.trials[j], tick(i, j), w');
      }
    }
    TrialsTouched(ids, task.spec, i, step, task.trials, |task.trials|, w, j);
  }

  // ---- all tasks of a run -----------------------------------------------------------

  ghost predicate TasksOk(w: World, tasks: seq<Task>) {
    forall i: nat | i < |tasks| :: TaskOk(w, i, tasks[i])
  }

  function RunAhead(tasks: seq<Task>): int {
    if tasks == [] then 0 else RunAhead(tasks[..|tasks| - 1]) + TaskAhead(tasks[|tasks| - 1])
  }

  lemma RunAheadExtends(tasks: seq<Task>, t: Task)
    ensures RunAhead(tasks + [t]) == RunAhead(tasks) + TaskAhead(t)
  {
    assert (tasks + [t])[..|tasks|] == tasks;
  }

  lemma OtherTaskOk(w: World, w': World, i: nat, i': nat, task: Task)
    requires OtherTasksKept(w, w', i) && i' != i && TaskOk(w, i', task)
    ensures TaskOk(w', i', task)
  {
    forall j: nat | j < |task.trials| ensures TrialOk(w', task.spec, i', j, task.trials[j]) {
      assert TrialOk(w, task.spec, i', j, task.trials[j]);
    }
  }

  lemma OneTaskReplaced(w: World, w': World, tasks: seq<Task>, i: nat, t: Task)
    requires i < |tasks| && TasksOk(w, tasks) && OtherTasksKept(w, w', i) && TaskOk(w', i, t)
    ensures TasksOk(w', tasks[i := t])
  {
    forall i': nat | i' < |tasks| && i' != i ensures TaskOk(w', i', tasks[i']) {
      OtherTaskOk(w, w', i, i', tasks[i']);
    }
  }

  /** One step keeps the task it moves and the sessions of all other tasks. */
  ghost predicate KeepsTaskAt(ids: Ids, step: TaskStep, i: nat, task: Task, w: World) {
    var r := step(i, task, w);
    WorldOk(ids, w) && TaskOk(w, i, task) ==>
      && TaskOk(r.world, i, r.task) && WorldOk(ids, r.world) && OtherTasksKept(w, r.world, i)
  }

  ghost predicate ProgressesTaskAt(ids: Ids, step: TaskStep, i: nat, task: Task, w: World) {
    var r := step(i, task, w);
    WorldOk(ids, w) && TaskOk(w, i, task) ==>
      && (r.progressed ==> TaskAhead(r.task) < TaskAhead(task))
      && (!r.progressed ==> r.task == task && r.world == w)
  }

  /** Terminal trials stay; an open trial with an idle session makes progress. */
  ghost predicate TouchesTaskAt(ids: Ids, tick: Tick, step: TaskStep, i: nat, task: Task, w: World, j: nat) {
    var r := step(i, task, w);
    WorldOk(ids, w) && TaskOk(w, i, task) && j < |task.trials| ==>
      && |r.task.trials| == |task.trials| && r.task.spec == task.spec
      && (Terminal(task.trials[j].status) ==> r.task.trials[j] == task.trials[j])
      && (Moves(task.trials[j], tick(i, j)) ==> r.progressed)
  }

  ghost predicate KeepsTasks(ids: Ids, step: TaskStep) {
    forall i: nat, task, w :: KeepsTaskAt(ids, step, i, task, w)
  }

  ghost predicate ProgressesTasks(ids: Ids, step: TaskStep) {
    forall i: nat, task, w :: ProgressesTaskAt(ids, step, i, task, w)
  }

  ghost predicate TouchesTasks(ids: Ids, tick: Tick, step: TaskStep) {
    forall i: nat, task, w, j: nat :: TouchesTaskAt(ids, tick, step, i, task, w, j)
  }

  lemma TaskStepsGood(ids: Ids, tick: Tick)
    requires NeverRepeats(ids)
    ensures KeepsTasks(ids, TaskStepsOf(ids, tick))
    ensures ProgressesTasks(ids, TaskStepsOf(ids, tick))
    ensures TouchesTasks(ids, tick, TaskStepsOf(ids, tick))
  {
    var step := TaskStepsOf(ids, tick);
    forall i: nat, task, w ensures KeepsTaskAt(ids, step, i, task, w) && ProgressesTaskAt(ids, step, i, task, w) {
      if WorldOk(ids, w) && TaskOk(w, i, task) && Open(task.status) {
        TaskKeeps(ids, i, task, tick, w);
        TaskProgress(ids, i, task, tick, w);
      }
    }
    forall i: nat, task, w, j: nat ensures TouchesTaskAt(ids, tick, step, i, task, w, j) {
      if WorldOk(ids, w) && TaskOk(w, i, task) && j < |task.trials| {
        if Open(task.status) {
          TaskTouched(ids, i, task, tick, w, j);
        } else {
          TaskDone(w, i, task);
          AheadCounts(w, task.spec, i, task.trials);
        }
      }
    }
  }

  lemma {:induction false} TasksKeep(ids: Ids, step: TaskStep, tasks: seq<Task>, n: nat, w: World)
    requires KeepsTasks(ids, step)
    requires WorldOk(ids, w) && n <= |tasks| && TasksOk(w, tasks)
    ensures
      var r := AdvanceTasks(step, tasks, n, w);
      |r.tasks| == n && TasksOk(r.world, r.tasks + tasks[n..]) && WorldOk(ids, r.world)
  {
    if n == 0 {
      assert [] + tasks[0..] == tasks;
    } else {
      TasksKeep(ids, step, tasks, n - 1, w);
      var b := AdvanceTasks(step, tasks, n - 1, w);
      var mixed := b.tasks + tasks[n - 1..];
      assert mixed[n - 1] == tasks[n - 1];
      var t := step(n - 1, tasks[n - 1], b.world);
      assert KeepsTaskAt(ids, step, n - 1, tasks[n - 1], b.world);
      OneTaskReplaced(b.world, t.world, mixed, n - 1, t.task);
      assert b.tasks + [t.task] + tasks[n..] == mixed[n - 1 := t.task];
    }
  }

  /** The n-th task is still fine when its turn comes. */
  lemma NthTaskOk(ids: Ids, step: TaskStep, tasks: seq<Task>, n: nat, w: World)
    requires KeepsTasks(ids, step)
    requires WorldOk(ids, w) && 0 < n <= |tasks| && TasksOk(w, tasks)
    ensures
      var b := AdvanceTasks(step, tasks, n - 1, w);
      TaskOk(b.world, n - 1, tasks[n - 1]) && WorldOk(ids, b.world)
  {
    TasksKeep(ids, step, tasks, n - 1, w);
    var b := AdvanceTasks(step, tasks, n - 1, w);
    assert (b.tasks + tasks[n - 1..])[n - 1] == tasks[n - 1];
  }

  ghost predicate NearerTaskAt(step: TaskStep, tasks: seq<Task>, m: nat, w: World)
    requires m < |tasks|
  {
    var b := AdvanceTasks(step, tasks, m, w);
    var t := step(m, tasks[m], b.world);
    && (t.progressed ==> TaskAhead(t.task) < TaskAhead(tasks[m]))
    && (!t.progressed ==> t.task == tasks[m] && t.world == b.world)
  }

  lemma EachTaskNearer(ids: Ids, step: TaskStep, tasks: seq<Task>, w: World)
    requires KeepsTasks(ids, step) && ProgressesTasks(ids, step)
    requires WorldOk(ids, w) && TasksOk(w, tasks)
    ensures forall m: nat | m < |tasks| :: NearerTaskAt(step, tasks, m, w)
  {
    forall m: nat | m < |tasks| ensures NearerTaskAt(step, tasks, m, w) {
      NthTaskOk(ids, step, tasks, m + 1, w);
      assert ProgressesTaskAt(ids, step, m, tasks[m], AdvanceTasks(step, tasks, m, w).world);
    }
  }

  /** A pass over the tasks progresses exactly when fewer steps lie ahead. */
  lemma {:induction false} TasksProgress(step: TaskStep, tasks: seq<Task>, n: nat, w: World)
    requires n <= |tasks| && forall m: nat | m < n :: NearerTaskAt(step, tasks, m, w)
    ensures
      var r := AdvanceTasks(step, tasks, n, w);
      && (r.progressed ==> RunAhead(r.tasks) < RunAhead(tasks[..n]))
      && (!r.progressed ==> r.tasks == tasks[..n] && r.world == w)
  {
    if n > 0 {
      TasksProgress(step, tasks, n - 1, w);
      assert NearerTaskAt(step, tasks, n - 1, w);
      var b := AdvanceTasks(step, tasks, n - 1, w);
      assert tasks[..n] == tasks[..n - 1] + [tasks[n - 1]];
      OneMoreTask(tasks[..n - 1], tasks[n - 1], w, b, step(n - 1, tasks[n - 1], b.world));
    }
  }

  lemma OneMoreTask(before: seq<Task>, task: Task, w: World, b: Ran, t: Tasked)
    requires b.progressed ==> RunAhead(b.tasks) < RunAhead(before)
    requires !b.progressed ==> b.tasks == before && b.world == w
    requires t.progressed ==> TaskAhead(t.task) < TaskAhead(task)
    requires !t.progressed ==> t.task == task && t.world == b.world
    ensures ThenTask(b, t).progressed ==> RunAhead(ThenTask(b, t).tasks) < RunAhead(before + [task])
    ensures !ThenTask(b, t).progressed ==> ThenTask(b, t).tasks == before + [task] && ThenTask(b, t).world == w
  {
    RunAheadExtends(before, task);
    RunAheadExtends(b.tasks, t.task);
  }

  /** Going on adds to what the first tasks gave. */
  lemma {:induction false} TasksGoOn(step: TaskStep, tasks: seq<Task>, m: nat, n: nat, w: World)
    requires m <= n <= |tasks|
    ensures
      var first, all := AdvanceTasks(step, tasks, m, w), AdvanceTasks(step, tasks, n, w);
      |first.tasks| == m && first.tasks <= all.tasks && |all.tasks| == n && (first.progressed ==> all.progressed)
  {
    if m < n {
      TasksGoOn(step, tasks, m, n - 1, w);
    } else if n > 0 {
      TasksGoOn(step, tasks, n - 1, n - 1, w);
    }
  }

  /** What became of the i-th task is what its own step made of it. */
  lemma TurnOf(step: TaskStep, tasks: seq<Task>, n: nat, w: World, i: nat)
    requires i < n <= |tasks|
    ensures
      var all, own := AdvanceTasks(step, tasks, n, w), step(i, tasks[i], AdvanceTasks(step, tasks, i, w).world);
      |all.tasks| == n && all.tasks[i] == own.task && (own.progressed ==> all.progressed)
  {
    TasksGoOn(step, tasks, i + 1, n, w);
    TasksGoOn(step, tasks, i, i + 1, w);
  }

  /** Trial j of a task after its step: terminal trials stay. */
  ghost predicate Served(before: Task, after: Task, j: nat)
    requires j < |before.trials|
  {
    && |after.trials| == |before.trials| && after.spec == before.spec
    && (Terminal(before.trials[j].status) ==> after.trials[j] == before.trials[j])
  }

  lemma Touched(ids: Ids, tick: Tick, step: TaskStep, i: nat, task: Task, w: World, j: nat)
    requires TouchesTasks(ids, tick, step) && WorldOk(ids, w) && TaskOk(w, i, task) && j < |task.trials|
    ensures
      var r := step(i, task, w);
      Served(task, r.task, j) && (Moves(task.trials[j], tick(i, j)) ==> r.progressed)
  {
    assert TouchesTaskAt(ids, tick, step, i, task, w, j);
  }

  lemma TasksTouched(ids: Ids, step: TaskStep, tick: Tick, tasks: seq<Task>, n: nat, w: World, i: nat, j: nat)
    requires TouchesTasks(ids, tick, step) && i < n <= |tasks| && j < |tasks[i].trials|
    requires
      var b := AdvanceTasks(step, tasks, i, w);
      WorldOk(ids, b.world) && TaskOk(b.world, i, tasks[i])
    ensures
      var r := AdvanceTasks(step, tasks, n, w);
      && |r.tasks| == n && Served(tasks[i], r.tasks[i], j)
      && (Moves(tasks[i].trials[j], tick(i, j)) ==> r.progressed)
  {
    TurnOf(step, tasks, n, w, i);
    Touched(ids, tick, step, i, tasks[i], AdvanceTasks(step, tasks, i, w).world, j);
  }

  lemma FirstTasksOk(w: World, tasks: seq<Task>)
    requires TasksOk(w, tasks) && tasks != []
    ensures TasksOk(w, tasks[..|tasks| - 1]) && TaskOk(w, |tasks| - 1, tasks[|tasks| - 1])
  {
    var init := tasks[..|tasks| - 1];
    forall i: nat | i < |init| ensures TaskOk(w, i, init[i]) {
      assert init[i] == tasks[i];
    }
  }

  /** Every task is finished exactly when nothing lies ahead of the run. */
  lemma {:induction false} RunDone(w: World, tasks: seq<Task>)
    requires TasksOk(w, tasks)
    ensures RunAhead(tasks) >= 0
    ensures CountTasks(tasks, Completed) + CountTasks(tasks, Failed) <= |tasks|
    ensures CountTasks(tasks, Completed) + CountTasks(tasks, Failed) == |tasks| <==> RunAhead(tasks) == 0
  {
    if tasks != [] {
      var init, last := tasks[..|tasks| - 1], tasks[|tasks| - 1];
      FirstTasksOk(w, tasks);
      RunDone(w, init);
      TaskDone(w, |tasks| - 1, last);
    }
  }
}
