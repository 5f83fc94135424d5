/** The worker's whole history with one stored run, from its creation on. */
module EvalHistory {
  import opened Folds
  import opened Text
  import opened EvalState
  import opened EvalCodec
  import opened EvalWorker
  import opened EvalTrials
  import opened EvalRuns

  // ---- how a run is created ---------------------------------------------------------

  datatype Request = Request(id: string, messages: seq<string>, trials: int, rubric: Option<Rubric>, timeoutMs: int)

  function TrialCount(r: Request): nat { if r.trials < 1 then 1 else r.trials }

  function InitialTrial(k: nat): TrialDoc {
    TrialDoc(Int(k), Pending, Absent, Absent, Absent, Absent, Absent, Absent, Absent)
  }

  function InitialTask(r: Request): seq<TaskDoc> {
    [TaskDoc(Str(r.id), MarshalSpec(TaskSpec(r.id, r.messages, r.rubric, r.timeoutMs)), Pending,
             Items(seq(TrialCount(r), k requires k >= 0 => InitialTrial(k))), Int(TrialCount(r)), Absent, Absent)]
  }

  function InitialDoc(requests: seq<Request>): RunDoc {
    RunDoc(Int(|requests|), Int(0), Int(0), Items(Gather(InitialTask, requests)))
  }

  method BuildInitialEvalResults(requests: seq<Request>) returns (d: RunDoc)
    ensures d == InitialDoc(requests)
  {
    var items: seq<TaskDoc> := [];
    for i := 0 to |requests|
      invariant items == Gather(InitialTask, requests[..i])
    {
      assert requests[..i + 1][..i] == requests[..i];
      var r := requests[i];
      var trialCount := r.trials;
      if trialCount < 1 {
        trialCount := 1;
      }
      var trials: seq<TrialDoc> := [];
      for k := 0 to trialCount
        invariant trials == seq(k, n requires n >= 0 => InitialTrial(n))
      {
        trials := trials + [InitialTrial(k)];
      }
      items := items + [TaskDoc(
        Str(r.id), MarshalSpec(TaskSpec(r.id, r.messages, r.rubric, r.timeoutMs)), Pending,
        Items(trials), Int(trialCount), Absent, Absent)];
    }
    assert requests[..|requests|] == requests;
    return RunDoc(Int(|requests|), Int(0), Int(0), Items(items));
  }

  function InitialRow(requests: seq<Request>): Row { Row(Pending, InitialDoc(requests), None, "") }

  // ---- what every stored row satisfies ------------------------------------------------

  ghost predicate StateOk(w: World, s: RunState) {
    && s.taskCount == |s.tasks| && TasksOk(w, s.tasks)
    && s.completedCount == CountTasks(s.tasks, Completed)
    && s.failedCount == CountTasks(s.tasks, Failed)
  }

  ghost predicate Untouched(tasks: seq<Task>) {
    forall i | 0 <= i < |tasks| :: tasks[i].status.Pending?
  }

  /** The stored row can be read, its counts are right, and it is finished exactly
      when nothing lies ahead, with the status and score of the counts. */
  ghost predicate RowOk(ids: Ids, w: World, row: Row) {
    WorldOk(ids, w) &&
    match Parse(row.status, row.results)
    case None => false
    case Some(s) =>
      && StateOk(w, s)
      && (row.status.Pending? ==> Untouched(s.tasks) && row.score.None?)
      && (row.status.Running? ==> RunAhead(s.tasks) > 0)
      && (Terminal(row.status) ==>
            RunAhead(s.tasks) == 0 && row.status == FinalStatus(s) && row.score == FinalScore(s))
      && !row.status.Unknown? && row.error == ""
  }

  function Stored(row: Row): RunState
    requires Parse(row.status, row.results).Some?
  {
    Parse(row.status, row.results).value
  }

  /** Writes a row may still see. */
  function Budget(row: Row): int
    requires Parse(row.status, row.results).Some?
  {
    var s := Stored(row);
    if Terminal(row.status) then 0 else if s.tasks == [] then 1 else RunAhead(s.tasks)
  }

  lemma StateNormal(w: World, s: RunState)
    requires StateOk(w, s)
    ensures Normal(s)
  {
    forall task | task in s.tasks ensures NormalTask(task) {
      var i :| 0 <= i < |s.tasks| && s.tasks[i] == task;
      assert TaskOk(w, i, s.tasks[i]);
      forall t | t in task.trials ensures NormalTrial(t) {
        var j :| 0 <= j < |task.trials| && task.trials[j] == t;
        assert TrialOk(w, task.spec, i, j, task.trials[j]);
      }
    }
  }

  /** A good state reads back as stored, under any status it is stored with. */
  lemma StateStored(w: World, s: RunState, status: Status)
    requires StateOk(w, s)
    ensures Parse(status, Marshal(s)) == Some(s.(status := status))
  {
    assert Marshal(s) == Marshal(s.(status := status));
    StateNormal(w, s.(status := status));
    RoundTrip(s.(status := status));
  }

  // ---- one tick -----------------------------------------------------------------------

  /** The pass over the tasks within a tick. */
  lemma PassGood(ids: Ids, s: RunState, tick: Tick, w: World)
    requires NeverRepeats(ids) && WorldOk(ids, w) && StateOk(w, s)
    ensures
      var ran := AdvanceTasks(TaskStepsOf(ids, tick), s.tasks, |s.tasks|, w);
      && |ran.tasks| == |s.tasks| && WorldOk(ids, ran.world) && StateOk(ran.world, Pass(s, ran.tasks))
      && (ran.progressed ==> RunAhead(ran.tasks) < RunAhead(s.tasks))
      && (!ran.progressed ==> ran.tasks == s.tasks && ran.world == w)
      && RunAhead(ran.tasks) >= 0
      && (Done(Pass(s, ran.tasks)) <==> RunAhead(ran.tasks) == 0)
  {
    var step, n := TaskStepsOf(ids, tick), |s.tasks|;
    TaskStepsGood(ids, tick);
    TasksKeep(ids, step, s.tasks, n, w);
    var ran := AdvanceTasks(step, s.tasks, n, w);
    assert ran.tasks + s.tasks[n..] == ran.tasks;
    EachTaskNearer(ids, step, s.tasks, w);
    TasksProgress(step, s.tasks, n, w);
    assert s.tasks[..n] == s.tasks;
    RunDone(ran.world, ran.tasks);
  }

  /** Every trial within a pass: terminal ones stay, movable ones make it progress. */
  lemma PassTouches(ids: Ids, s: RunState, tick: Tick, w: World, i: nat, j: nat)
    requires NeverRepeats(ids) && WorldOk(ids, w) && StateOk(w, s)
    requires i < |s.tasks| && j < |s.tasks[i].trials|
    ensures
      var ran := AdvanceTasks(TaskStepsOf(ids, tick), s.tasks, |s.tasks|, w);
      && |ran.tasks| == |s.tasks| && Served(s.tasks[i], ran.tasks[i], j)
      && (Moves(s.tasks[i].trials[j], tick(i, j)) ==> ran.progressed)
  {
    TaskStepsGood(ids, tick);
    NthTaskOk(ids, TaskStepsOf(ids, tick), s.tasks, i + 1, w);
    TasksTouched(ids, TaskStepsOf(ids, tick), tick, s.tasks, |s.tasks|, w, i, j);
  }

  lemma PendingMoves(ids: Ids, s: RunState, tick: Tick, w: World)
    requires NeverRepeats(ids) && WorldOk(ids, w) && StateOk(w, s) && Untouched(s.tasks) && s.tasks != []
    ensures AdvanceTasks(TaskStepsOf(ids, tick), s.tasks, |s.tasks|, w).progressed
  {
    assert TaskOk(w, 0, s.tasks[0]);
    PassTouches(ids, s, tick, w, 0, 0);
  }

  lemma FinishedStored(ids: Ids, w: World, row: Row, s: RunState, progressed: bool)
    requires WorldOk(ids, w) && StateOk(w, s) && Done(s)
    ensures Store(row, s, progressed).wrote && Terminal(Store(row, s, progressed).row.status)
    ensures RowOk(ids, w, Store(row, s, progressed).row)
  {
    StateStored(w, s, FinalStatus(s));
    RunDone(w, s.tasks);
  }

  lemma ProgressStored(ids: Ids, w: World, row: Row, s: RunState)
    requires WorldOk(ids, w) && StateOk(w, s) && !Done(s) && row.error == ""
    ensures
      var r := Store(row, s, true);
      r.wrote && RowOk(ids, w, r.row) && r.row.status.Running? && Stored(r.row).tasks == s.tasks
  {
    StateStored(w, s, Running);
    RunDone(w, s.tasks);
  }

  /** The tick of an open run, by what its pass over the tasks did. */
  lemma OpenTick(ids: Ids, row: Row, tick: Tick, w: World)
    requires RowOk(ids, w, row) && !Terminal(row.status)
    ensures
      var s, r := Stored(row), AdvanceRow(ids, row, tick, w);
      var ran := AdvanceTasks(TaskStepsOf(ids, tick), s.tasks, |s.tasks|, w);
      var stored := Store(row, Pass(s, ran.tasks), ran.progressed);
      && r.row == stored.row && r.wrote == stored.wrote && r.world == ran.world
      && r.memory == Some(Pass(s, ran.tasks))
  {
  }

  lemma SkippedTick(ids: Ids, row: Row, w: World)
    requires RowOk(ids, w, row) && row.status.Running?
    ensures Pass(Stored(row), Stored(row).tasks) == Stored(row) && !Done(Stored(row))
  {
    RunDone(w, Stored(row).tasks);
  }

  /** One tick keeps the row good; it writes exactly when it brings the run nearer to
      its end, which it reaches in the very tick that leaves nothing ahead. When it
      skips the write, what it held in memory is what is stored. */
  lemma TickKeeps(ids: Ids, row: Row, tick: Tick, w: World)
    requires NeverRepeats(ids) && RowOk(ids, w, row)
    ensures
      var r := AdvanceRow(ids, row, tick, w);
      && RowOk(ids, r.world, r.row)
      && (r.wrote ==> Budget(r.row) < Budget(row))
      && (!r.wrote ==> r.row == row && r.world == w && r.memory == Parse(row.status, row.results))
      && Budget(r.row) >= 0
  {
    BudgetPositive(ids, row, w);
    if !Terminal(row.status) {
      var s := Stored(row);
      OpenTick(ids, row, tick, w);
      PassGood(ids, s, tick, w);
      var ran := AdvanceTasks(TaskStepsOf(ids, tick), s.tasks, |s.tasks|, w);
      var s' := Pass(s, ran.tasks);
      if Done(s') {
        FinishedStored(ids, ran.world, row, s', ran.progressed);
      } else if ran.progressed {
        ProgressStored(ids, ran.world, row, s');
      } else {
        if row.status.Pending? && s.tasks != [] {
          PendingMoves(ids, s, tick, w);
        }
        SkippedTick(ids, row, w);
      }
    }
  }

  lemma BudgetPositive(ids: Ids, row: Row, w: World)
    requires RowOk(ids, w, row)
    ensures if Terminal(row.status) then Budget(row) == 0 else Budget(row) > 0
  {
    var s := Stored(row);
    if row.status.Pending? && s.tasks != [] {
      PendingAhead(w, s.tasks);
    }
  }

  lemma PendingAhead(w: World, tasks: seq<Task>)
    requires TasksOk(w, tasks) && Untouched(tasks) && tasks != []
    ensures RunAhead(tasks) > 0
  {
    NoneCounted(tasks);
    RunDone(w, tasks);
  }

  lemma {:induction false} NoneCounted(tasks: seq<Task>)
    requires Untouched(tasks)
    ensures CountTasks(tasks, Completed) == 0 && CountTasks(tasks, Failed) == 0
  {
    if tasks != [] {
      NoneCounted(tasks[..|tasks| - 1]);
    }
  }

  // ---- any number of ticks ---------------------------------------------------------------

  datatype History = History(row: Row, world: World, writes: nat)

  function After(ids: Ids, row: Row, ticks: seq<Tick>): History {
    if ticks == [] then History(row, World(0, map[]), 0)
    else
      var h := After(ids, row, ticks[..|ticks| - 1]);
      var r := AdvanceRow(ids, h.row, ticks[|ticks| - 1], h.world);
      History(r.row, r.world, h.writes + if r.wrote then 1 else 0)
  }

  ghost predicate Good(ids: Ids, h: History) { RowOk(ids, h.world, h.row) }

  function FreshTrial(k: nat): Trial { Trial(k, Pending, "", 0, "", "", "", 0.0, "") }

  /** A created task as the worker first reads it: blank criteria are gone. */
  function FreshSpec(r: Request): TaskSpec {
    ParseSpec(MarshalSpec(TaskSpec(r.id, r.messages, r.rubric, r.timeoutMs)))
  }

  function FreshTask(r: Request): Task {
    Task(r.id, FreshSpec(r), Pending, seq(TrialCount(r), k requires k >= 0 => FreshTrial(k)), TrialCount(r), 0, "")
  }

  lemma TrialsRead(n: nat)
    ensures Gather(ParseTrial, seq(n, k requires k >= 0 => InitialTrial(k)))
         == seq(n, k requires k >= 0 => FreshTrial(k))
  {
    var docs := seq(n, k requires k >= 0 => InitialTrial(k));
    GatherEach(ParseTrial, docs);
    forall k: nat | k < n ensures Gather(ParseTrial, docs)[k] == FreshTrial(k) {
      assert docs[k] == InitialTrial(k);
      IntTrip(k);
    }
  }

  lemma TaskRead(r: Request)
    ensures ParseTask(InitialTask(r)[0]) == [FreshTask(r)]
  {
    TrialsRead(TrialCount(r));
    IntTrip(TrialCount(r));
  }

  lemma FreshSpecOk(r: Request)
    ensures FreshSpec(r).messages == r.messages
    ensures FreshSpec(r).rubric.Some? ==> "" !in FreshSpec(r).rubric.value.criteria
  {
    TextsTrip(r.messages);
    if r.rubric.Some? {
      NoBlankCriterion(List(MarshalRubric(r.rubric).criteria));
    }
  }

  lemma FreshTaskOk(r: Request, i: nat, w: World)
    ensures TaskOk(w, i, FreshTask(r)) && TaskAhead(FreshTask(r)) == TrialCount(r) * (|r.messages| + 1)
  {
    FreshSpecOk(r);
    AllAhead(FreshSpec(r), FreshTask(r).trials);
  }

  lemma {:induction false} AllAhead(spec: TaskSpec, trials: seq<Trial>)
    requires forall k | 0 <= k < |trials| :: trials[k].status.Pending?
    ensures TotalAhead(spec, trials) == |trials| * (|spec.messages| + 1)
  {
    if trials != [] {
      AllAhead(spec, trials[..|trials| - 1]);
    }
  }

  /** Steps a freshly created run has ahead: per trial one for every message and one
      to finish. */
  function Planned(requests: seq<Request>): nat {
    if requests == [] then 0
    else
      var last := requests[|requests| - 1];
      Planned(requests[..|requests| - 1]) + TrialCount(last) * (|last.messages| + 1)
  }

  function Fresh(r: Request): seq<Task> { [FreshTask(r)] }

  lemma {:induction false} TasksRead(requests: seq<Request>)
    ensures Gather(ParseTask, Gather(InitialTask, requests)) == Gather(Fresh, requests)
  {
    if requests != [] {
      var init, last := requests[..|requests| - 1], requests[|requests| - 1];
      TasksRead(init);
      GatherExtends(ParseTask, Gather(InitialTask, init), InitialTask(last)[0]);
      TaskRead(last);
    }
  }

  lemma {:induction false} PlannedAhead(requests: seq<Request>)
    ensures RunAhead(Gather(Fresh, requests)) == Planned(requests)
  {
    if requests != [] {
      var init, last := requests[..|requests| - 1], requests[|requests| - 1];
      PlannedAhead(init);
      RunAheadExtends(Gather(Fresh, init), FreshTask(last));
      FreshTaskOk(last, 0, World(0, map[]));
    }
  }

  lemma FreshTasksOk(requests: seq<Request>, w: World)
    ensures
      var tasks := Gather(Fresh, requests);
      |tasks| == |requests| && TasksOk(w, tasks) && Untouched(tasks)
  {
    GatherEach(Fresh, requests);
    forall i: nat | i < |requests| ensures TaskOk(w, i, Gather(Fresh, requests)[i]) {
      FreshTaskOk(requests[i], i, w);
    }
  }

  /** A created run is good, and has all its planned steps ahead. */
  lemma Created(ids: Ids, requests: seq<Request>)
    ensures RowOk(ids, World(0, map[]), InitialRow(requests))
    ensures Stored(InitialRow(requests)).tasks == Gather(Fresh, requests)
    ensures Budget(InitialRow(requests)) == if requests == [] then 1 else Planned(requests)
  {
    var tasks := Gather(Fresh, requests);
    TasksRead(requests);
    FreshTasksOk(requests, World(0, map[]));
    NoneCounted(tasks);
    PlannedAhead(requests);
    IntTrip(|requests|);
    IntTrip(0);
    assert Parse(Pending, InitialDoc(requests)) == Some(RunState(Pending, |requests|, 0, 0, tasks));
  }

  lemma {:induction false} AlwaysGood(ids: Ids, row: Row, ticks: seq<Tick>)
    requires NeverRepeats(ids) && RowOk(ids, World(0, map[]), row)
    ensures Good(ids, After(ids, row, ticks))
    ensures After(ids, row, ticks).writes + Budget(After(ids, row, ticks).row) <= Budget(row)
    ensures Budget(After(ids, row, ticks).row) >= 0
  {
    if ticks == [] {
      RunDone(World(0, map[]), Stored(row).tasks);
    } else {
      var init := ticks[..|ticks| - 1];
      AlwaysGood(ids, row, init);
      var h := After(ids, row, init);
      TickKeeps(ids, h.row, ticks[|ticks| - 1], h.world);
    }
  }

  /** A run is written at most once per planned step, and is finished exactly when
      no step is left. */
  lemma WriteBound(ids: Ids, requests: seq<Request>, ticks: seq<Tick>)
    requires NeverRepeats(ids)
    ensures
      var h := After(ids, InitialRow(requests), ticks);
      && Parse(h.row.status, h.row.results).Some?
      && h.writes <= (if requests == [] then 1 else Planned(requests))
      && (Terminal(h.row.status) <==> Budget(h.row) == 0)
      && (h.writes == (if requests == [] then 1 else Planned(requests)) ==> Terminal(h.row.status))
  {
    Created(ids, requests);
    AlwaysGood(ids, InitialRow(requests), ticks);
    var h := After(ids, InitialRow(requests), ticks);
    BudgetPositive(ids, h.row, h.world);
  }

  /** Whenever a tick skips its write, the state it recomputed in memory is exactly
      the stored one. */
  lemma NoLostUpdate(ids: Ids, requests: seq<Request>, ticks: seq<Tick>, tick: Tick)
    requires NeverRepeats(ids)
    ensures
      var h := After(ids, InitialRow(requests), ticks);
      var r := AdvanceRow(ids, h.row, tick, h.world);
      !r.wrote ==> r.memory == Parse(h.row.status, h.row.results) && r.memory.Some? && r.world == h.world
  {
    Created(ids, requests);
    AlwaysGood(ids, InitialRow(requests), ticks);
    var h := After(ids, InitialRow(requests), ticks);
    TickKeeps(ids, h.row, tick, h.world);
  }

  // ---- the outcome ------------------------------------------------------------------------

  predicate Passed(task: Task) { forall t | t in task.trials :: t.status.Completed? }

  function PassedCount(tasks: seq<Task>): nat {
    if tasks == [] then 0
    else PassedCount(tasks[..|tasks| - 1]) + if Passed(tasks[|tasks| - 1]) then 1 else 0
  }

  lemma {:induction false} PassedCounted(w: World, tasks: seq<Task>)
    requires TasksOk(w, tasks)
    ensures PassedCount(tasks) == CountTasks(tasks, Completed)
  {
    if tasks != [] {
      var init, last := tasks[..|tasks| - 1], tasks[|tasks| - 1];
      FirstTasksOk(w, tasks);
      PassedCounted(w, init);
      PassedTask(w, |tasks| - 1, last);
    }
  }

  lemma PassedTask(w: World, i: nat, task: Task)
    requires TaskOk(w, i, task)
    ensures Passed(task) <==> task.status.Completed?
  {
    TaskDone(w, i, task);
    AheadCounts(w, task.spec, i, task.trials);
    assert task.trials[0] in task.trials;
    assert forall j | 0 <= j < |task.trials| :: task.trials[j] in task.trials;
  }

  /** A finished run: every trial is terminal, the score is the share of tasks all of
      whose trials completed, and it failed exactly when there were tasks and none
      passed. */
  lemma Outcome(ids: Ids, requests: seq<Request>, ticks: seq<Tick>)
    requires NeverRepeats(ids) && Terminal(After(ids, InitialRow(requests), ticks).row.status)
    ensures
      var row := After(ids, InitialRow(requests), ticks).row;
      && Parse(row.status, row.results).Some?
      && var tasks := Stored(row).tasks; var passed := PassedCount(tasks);
      && passed <= |tasks|
      && (row.status.Failed? <==> tasks != [] && passed == 0)
      && row.score == (if passed == 0 then None else Some(passed as real / |tasks| as real))
      && forall i, j :: 0 <= i < |tasks| && 0 <= j < |tasks[i].trials| ==> Terminal(tasks[i].trials[j].status)
  {
    Created(ids, requests);
    AlwaysGood(ids, InitialRow(requests), ticks);
    var h := After(ids, InitialRow(requests), ticks);
    var tasks := Stored(h.row).tasks;
    PassedCounted(h.world, tasks);
    RunDone(h.world, tasks);
    forall i: nat, j: nat | i < |tasks| && j < |tasks[i].trials| ensures Terminal(tasks[i].trials[j].status) {
      NothingAhead(h.world, tasks, i);
      assert TaskOk(h.world, i, tasks[i]);
      AheadCounts(h.world, tasks[i].spec, i, tasks[i].trials);
    }
  }

  lemma {:induction false} PartAhead(tasks: seq<Task>, i: nat)
    requires i <= |tasks| && forall k | 0 <= k < |tasks| :: TaskAhead(tasks[k]) >= 0
    ensures RunAhead(tasks) >= 0 && (i < |tasks| ==> TaskAhead(tasks[i]) <= RunAhead(tasks))
  {
    if tasks != [] {
      var n := |tasks| - 1;
      PartAhead(tasks[..n], if i < n then i else n);
    }
  }

  lemma NothingAhead(w: World, tasks: seq<Task>, i: nat)
    requires TasksOk(w, tasks) && RunAhead(tasks) == 0 && i < |tasks|
    ensures TaskAhead(tasks[i]) == 0
  {
    forall k: nat | k < |tasks| ensures TaskAhead(tasks[k]) >= 0 {
      TaskDone(w, k, tasks[k]);
    }
    PartAhead(tasks, i);
  }

  // ---- terminal trials, and the end -----------------------------------------------------------

  lemma TickTouches(ids: Ids, row: Row, tick: Tick, w: World, i: nat, j: nat)
    requires NeverRepeats(ids) && RowOk(ids, w, row)
    requires i < |Stored(row).tasks| && j < |Stored(row).tasks[i].trials|
    ensures
      var r := AdvanceRow(ids, row, tick, w);
      && Parse(r.row.status, r.row.results).Some?
      && var tasks, tasks' := Stored(row).tasks, Stored(r.row).tasks;
      && |tasks'| == |tasks| && |tasks'[i].trials| == |tasks[i].trials| && tasks'[i].spec == tasks[i].spec
      && (Terminal(tasks[i].trials[j].status) ==> tasks'[i].trials[j] == tasks[i].trials[j])
      && (Moves(tasks[i].trials[j], tick(i, j)) && !Terminal(row.status) ==> r.wrote)
  {
    var s := Stored(row);
    if !Terminal(row.status) {
      PassGood(ids, s, tick, w);
      PassTouches(ids, s, tick, w, i, j);
      var ran := AdvanceTasks(TaskStepsOf(ids, tick), s.tasks, |s.tasks|, w);
      var s' := Pass(s, ran.tasks);
      StateStored(ran.world, s', FinalStatus(s'));
      StateStored(ran.world, s', Running);
    }
  }

  /** Tasks keep what was requested of them. */
  lemma {:induction false} RequestsKept(ids: Ids, requests: seq<Request>, ticks: seq<Tick>, i: nat)
    requires NeverRepeats(ids) && i < |requests|
    ensures
      var row := After(ids, InitialRow(requests), ticks).row;
      && Parse(row.status, row.results).Some?
      && var tasks := Stored(row).tasks;
      && |tasks| == |requests| && |tasks[i].trials| == TrialCount(requests[i])
      && tasks[i].spec == FreshSpec(requests[i])
  {
    Created(ids, requests);
    if ticks == [] {
      GatherEach(Fresh, requests);
    } else {
      var init := ticks[..|ticks| - 1];
      RequestsKept(ids, requests, init, i);
      AlwaysGood(ids, InitialRow(requests), init);
      var h := After(ids, InitialRow(requests), init);
      TickTouches(ids, h.row, ticks[|ticks| - 1], h.world, i, 0);
    }
  }

  /** In every reachable state, a running trial at index k was sent exactly messages
      0..k of its request in order, once each, and a completed one all of them, each
      in a session of its own. */
  lemma MessageOrder(ids: Ids, requests: seq<Request>, ticks: seq<Tick>, i: nat, j: nat)
    requires NeverRepeats(ids) && i < |requests| && j < TrialCount(requests[i])
    ensures
      var h := After(ids, InitialRow(requests), ticks);
      && Parse(h.row.status, h.row.results).Some?
      && var tasks := Stored(h.row).tasks;
      && |tasks| == |requests| && |tasks[i].trials| == TrialCount(requests[i])
      && tasks[i].spec.messages == requests[i].messages
      && TrialOk(h.world, tasks[i].spec, i, j, tasks[i].trials[j])
  {
    Created(ids, requests);
    AlwaysGood(ids, InitialRow(requests), ticks);
    RequestsKept(ids, requests, ticks, i);
    FreshSpecOk(requests[i]);
    var h := After(ids, InitialRow(requests), ticks);
    assert TaskOk(h.world, i, Stored(h.row).tasks[i]);
  }

  predicate HasTrial(row: Row, i: nat, j: nat, t: Trial) {
    && Parse(row.status, row.results).Some?
    && i < |Stored(row).tasks| && j < |Stored(row).tasks[i].trials| && Stored(row).tasks[i].trials[j] == t
  }

  lemma TrialStays(ids: Ids, row: Row, tick: Tick, w: World, i: nat, j: nat, t: Trial)
    requires NeverRepeats(ids) && RowOk(ids, w, row) && HasTrial(row, i, j, t) && Terminal(t.status)
    ensures HasTrial(AdvanceRow(ids, row, tick, w).row, i, j, t)
  {
    TickTouches(ids, row, tick, w, i, j);
  }

  /** A property of rows that one tick keeps. */
  ghost predicate KeptAt(ids: Ids, p: Row -> bool, row: Row, tick: Tick, w: World) {
    RowOk(ids, w, row) && p(row) ==> p(AdvanceRow(ids, row, tick, w).row)
  }

  lemma {:induction false} KeptForever(ids: Ids, row: Row, ticks: seq<Tick>, more: seq<Tick>, p: Row -> bool)
    requires NeverRepeats(ids) && RowOk(ids, World(0, map[]), row) && p(After(ids, row, ticks).row)
    requires forall r, tick, w :: KeptAt(ids, p, r, tick, w)
    ensures p(After(ids, row, ticks + more).row)
  {
    if more == [] {
      assert ticks + more == ticks;
    } else {
      var n := |more| - 1;
      var before := ticks + more[..n];
      KeptForever(ids, row, ticks, more[..n], p);
      assert (ticks + more)[..|ticks + more| - 1] == before;
      AlwaysGood(ids, row, before);
      var h := After(ids, row, before);
      assert KeptAt(ids, p, h.row, more[n], h.world);
    }
  }

  /** Once terminal, a trial is never touched again. */
  lemma TerminalForever(ids: Ids, requests: seq<Request>, ticks: seq<Tick>, more: seq<Tick>, i: nat, j: nat, t: Trial)
    requires NeverRepeats(ids) && Terminal(t.status)
    requires HasTrial(After(ids, InitialRow(requests), ticks).row, i, j, t)
    ensures HasTrial(After(ids, InitialRow(requests), ticks + more).row, i, j, t)
  {
    var p := (row: Row) => HasTrial(row, i, j, t);
    forall r, tick, w ensures KeptAt(ids, p, r, tick, w) {
      if RowOk(ids, w, r) && HasTrial(r, i, j, t) {
        TrialStays(ids, r, tick, w, i, j, t);
      }
    }
    Created(ids, requests);
    KeptForever(ids, InitialRow(requests), ticks, more, p);
  }

  /** A tick in which every session is found idle. */
  ghost predicate AllIdle(tick: Tick) { forall i: nat, j: nat :: tick(i, j).idle }

  lemma IdlePass(ids: Ids, s: RunState, tick: Tick, w: World)
    requires NeverRepeats(ids) && WorldOk(ids, w) && StateOk(w, s) && AllIdle(tick) && RunAhead(s.tasks) > 0
    ensures AdvanceTasks(TaskStepsOf(ids, tick), s.tasks, |s.tasks|, w).progressed
  {
    var i, j := SomeOpen(w, s.tasks);
    PassTouches(ids, s, tick, w, i, j);
  }

  lemma IdleWrites(ids: Ids, row: Row, tick: Tick, w: World)
    requires NeverRepeats(ids) && RowOk(ids, w, row) && AllIdle(tick) && !Terminal(row.status)
    ensures AdvanceRow(ids, row, tick, w).wrote
  {
    BudgetPositive(ids, row, w);
    OpenTick(ids, row, tick, w);
    if Stored(row).tasks != [] {
      IdlePass(ids, Stored(row), tick, w);
    }
  }

  /** A trial that is not terminal, when steps lie ahead. */
  lemma {:induction false} SomeOpen(w: World, tasks: seq<Task>) returns (i: nat, j: nat)
    requires TasksOk(w, tasks) && RunAhead(tasks) > 0
    ensures i < |tasks| && j < |tasks[i].trials| && !Terminal(tasks[i].trials[j].status)
  {
    var n := |tasks| - 1;
    if TaskAhead(tasks[n]) > 0 {
      FirstTasksOk(w, tasks);
      AheadCounts(w, tasks[n].spec, n, tasks[n].trials);
      i := n;
      j :| j < |tasks[n].trials| && !Terminal(tasks[n].trials[j].status);
    } else {
      FirstTasksOk(w, tasks);
      i, j := SomeOpen(w, tasks[..n]);
    }
  }

  ghost function IdleTicks(ticks: seq<Tick>): nat {
    if ticks == [] then 0
    else IdleTicks(ticks[..|ticks| - 1]) + if AllIdle(ticks[|ticks| - 1]) then 1 else 0
  }

  lemma {:induction false} IdleCounts(ids: Ids, row: Row, ticks: seq<Tick>)
    requires NeverRepeats(ids) && RowOk(ids, World(0, map[]), row)
    ensures Terminal(After(ids, row, ticks).row.status) || After(ids, row, ticks).writes >= IdleTicks(ticks)
  {
    if ticks != [] {
      var init, last := ticks[..|ticks| - 1], ticks[|ticks| - 1];
      IdleCounts(ids, row, init);
      AlwaysGood(ids, row, init);
      var h := After(ids, row, init);
      if AllIdle(last) && !Terminal(h.row.status) {
        IdleWrites(ids, h.row, last, h.world);
      }
    }
  }

  /** Every run ends: as soon as it saw as many idle ticks as it had steps planned,
      however many other ticks lie between, whatever failed. */
  lemma Ends(ids: Ids, requests: seq<Request>, ticks: seq<Tick>)
    requires NeverRepeats(ids)
    requires IdleTicks(ticks) >= if requests == [] then 1 else Planned(requests)
    ensures Terminal(After(ids, InitialRow(requests), ticks).row.status)
  {
    Created(ids, requests);
    IdleCounts(ids, InitialRow(requests), ticks);
    WriteBound(ids, requests, ticks);
  }
}
