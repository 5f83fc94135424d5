/** The eval worker: one tick moves every open trial of a run one step. */
module EvalWorker {
  import opened Text
  import opened EvalState
  import opened EvalCodec

  // ---- what the worker talks to -------------------------------------------------

  datatype Verdict = Satisfied | Unsatisfied(feedback: string) | JudgeFailed(error: string)

  /** How everything outside answers one trial during one tick. `late` is the error
      of a trial past its timeout, judged from its start time. */
  datatype Answer = Answer(
    createError: Option<string>, sendError: Option<string>, late: Option<string>,
    idle: bool, verdict: Verdict, now: string)

  /** The answers of one tick, by task and trial position. */
  type Tick = (nat, nat) -> Answer

  /** A session, the trial it was created for, and the messages it was sent. */
  datatype Session = Session(task: nat, trial: nat, sent: seq<string>)

  datatype World = World(next: nat, sessions: map<string, Session>)

  /** The n-th session id drawn. */
  type Ids = nat -> string

  /** Session ids are never empty and never drawn twice. */
  ghost predicate NeverRepeats(ids: Ids) {
    (forall k :: ids(k) != "") && forall k, l :: k != l ==> ids(k) != ids(l)
  }

  function Create(ids: Ids, w: World, i: nat, j: nat): World {
    World(w.next + 1, w.sessions[ids(w.next) := Session(i, j, [])])
  }

  function Send(w: World, sid: string, message: string): World {
    if sid in w.sessions then
      var s := w.sessions[sid];
      w.(sessions := w.sessions[sid := s.(sent := s.sent + [message])])
    else w
  }

  // ---- one trial ------------------------------------------------------------------

  datatype Advanced = Advanced(trial: Trial, world: World, progressed: bool)

  function Fail(t: Trial, error: string, now: string): Trial {
    t.(status := Failed, error := error, endedAt := now)
  }

  /** Without a rubric every trial passes; the judge is not asked. */
  function Judged(spec: TaskSpec, a: Answer): Verdict {
    if spec.rubric.None? || spec.rubric.value.description == "" then Satisfied else a.verdict
  }

  function Score(spec: TaskSpec, t: Trial, a: Answer): Trial {
    var t' := t.(trajectoryId := "tr-" + t.sessionId);
    match Judged(spec, a)
    case JudgeFailed(error) => Fail(t', error, a.now)
    case Satisfied => t'.(reward := 1.0, status := Completed, endedAt := a.now)
    case Unsatisfied(feedback) =>
      Fail(t'.(reward := 0.0), if feedback != "" then feedback else "rubric not satisfied", a.now)
  }

  function StartTrial(ids: Ids, spec: TaskSpec, i: nat, j: nat, t: Trial, a: Answer, w: World): Advanced
    requires spec.messages != []
  {
    if a.createError.Some? then Advanced(Fail(t, a.createError.value, a.now), w, true)
    else
      var sid := ids(w.next);
      var w' := Create(ids, w, i, j);
      var t' := t.(sessionId := sid, status := Running, startedAt := a.now, messageIndex := 0);
      if a.sendError.Some? then Advanced(Fail(t', a.sendError.value, a.now), w', true)
      else Advanced(t', Send(w', sid, spec.messages[0]), true)
  }

  /** The one way a step stops out of range: an idle trial in time is to be sent the
      message after an index under -1. */
  predicate OutOfRange(spec: TaskSpec, t: Trial, a: Answer) {
    && !Terminal(t.status) && !t.status.Pending? && spec.messages != [] && t.sessionId != ""
    && !(t.startedAt != "" && a.late.Some?) && a.idle && t.messageIndex < -1
  }

  /** What a trial becomes, unless its step stops out of range. */
  function AdvanceTrial(ids: Ids, spec: TaskSpec, i: nat, j: nat, t: Trial, a: Answer, w: World): Advanced {
    if Terminal(t.status) then Advanced(t, w, false)
    else if spec.messages == [] then Advanced(Fail(t, "task has no messages", a.now), w, true)
    else if t.status.Pending? then StartTrial(ids, spec, i, j, t, a, w)
    else if t.sessionId == "" then Advanced(Fail(t, "running trial missing session_id", a.now), w, true)
    else if t.startedAt != "" && a.late.Some? then Advanced(Fail(t, a.late.value, a.now), w, true)
    else if !a.idle then Advanced(t, w, false)
    else if 0 <= t.messageIndex + 1 < |spec.messages| then
      if a.sendError.Some? then Advanced(Fail(t, a.sendError.value, a.now), w, true)
      else Advanced(t.(messageIndex := t.messageIndex + 1),
                    Send(w, t.sessionId, spec.messages[t.messageIndex + 1]), true)
    else Advanced(Score(spec, t, a), w, true)
  }

  // ---- one task -------------------------------------------------------------------

  predicate TrialsInRange(i: nat, task: Task, tick: Tick) {
    forall j | 0 <= j < |task.trials| :: !OutOfRange(task.spec, task.trials[j], tick(i, j))
  }

  /** One trial's step within a tick, by its position in the task. */
  type TrialStep = (nat, Trial, World) -> Advanced

  function StepsOf(ids: Ids, spec: TaskSpec, i: nat, tick: Tick): TrialStep {
    (j: nat, t: Trial, w: World) => AdvanceTrial(ids, spec, i, j, t, tick(i, j), w)
  }

  datatype Trialed = Trialed(trials: seq<Trial>, world: World, progressed: bool)

  /** The first n trials advanced in order. */
  function AdvanceTrials(step: TrialStep, trials: seq<Trial>, n: nat, w: World): Trialed
    requires n <= |trials|
  {
    if n == 0 then Trialed([], w, false)
    else
      var before := AdvanceTrials(step, trials, n - 1, w);
      var a := step(n - 1, trials[n - 1], before.world);
      Trialed(before.trials + [a.trial], a.world, before.progressed || a.progressed)
  }

  function CountTrials(trials: seq<Trial>, status: Status): nat {
    if trials == [] then 0
    else CountTrials(trials[..|trials| - 1], status) + if trials[|trials| - 1].status == status then 1 else 0
  }

  function FirstError(trials: seq<Trial>): Option<string> {
    if trials == [] then None
    else if trials[0].error != "" then Some(trials[0].error)
    else FirstError(trials[1..])
  }

  /** Status and counts of a task from its trials. */
  function Recount(task: Task): Task {
    var pass, failed := CountTrials(task.trials, Completed), CountTrials(task.trials, Failed);
    var counted := task.(passCount := pass, trialTotal := |task.trials|);
    if pass + failed != |task.trials| then counted.(status := Running)
    else if pass == |task.trials| then counted.(status := Completed)
    else
      var error := FirstError(task.trials);
      counted.(status := Failed, error := if error.Some? then error.value else task.error)
  }

  datatype Tasked = Tasked(task: Task, world: World, progressed: bool)

  function AdvanceTask(ids: Ids, i: nat, task: Task, tick: Tick, w: World): Tasked {
    var done := AdvanceTrials(StepsOf(ids, task.spec, i, tick), task.trials, |task.trials|, w);
    Tasked(Recount(task.(trials := done.trials)), done.world, done.progressed)
  }

  predicate Open(status: Status) { status.Pending? || status.Running? }

  // ---- one run --------------------------------------------------------------------

  predicate OpenInRange(tasks: seq<Task>, tick: Tick) {
    forall i | 0 <= i < |tasks| && Open(tasks[i].status) :: TrialsInRange(i, tasks[i], tick)
  }

  type TaskStep = (nat, Task, World) -> Tasked

  /** One task's step within a tick: tasks that are not open are skipped. */
  function TaskStepsOf(ids: Ids, tick: Tick): TaskStep {
    (i: nat, task: Task, w: World) =>
      if Open(task.status) then AdvanceTask(ids, i, task, tick, w) else Tasked(task, w, false)
  }

  datatype Ran = Ran(tasks: seq<Task>, world: World, progressed: bool)

  /** The first n tasks in order. */
  function AdvanceTasks(step: TaskStep, tasks: seq<Task>, n: nat, w: World): Ran
    requires n <= |tasks|
  {
    if n == 0 then Ran([], w, false)
    else
      var before := AdvanceTasks(step, tasks, n - 1, w);
      ThenTask(before, step(n - 1, tasks[n - 1], before.world))
  }

  function ThenTask(before: Ran, t: Tasked): Ran {
    Ran(before.tasks + [t.task], t.world, before.progressed || t.progressed)
  }

  function CountTasks(tasks: seq<Task>, status: Status): nat {
    if tasks == [] then 0
    else CountTasks(tasks[..|tasks| - 1], status) + if tasks[|tasks| - 1].status == status then 1 else 0
  }

  /** The run's state in memory after one pass over its tasks. */
  function Pass(s: RunState, tasks: seq<Task>): RunState {
    RunState(if s.status.Pending? then Running else s.status, s.taskCount,
             CountTasks(tasks, Completed), CountTasks(tasks, Failed), tasks)
  }

  predicate Done(s: RunState) { s.completedCount + s.failedCount == s.taskCount }

  function FinalStatus(s: RunState): Status {
    if s.failedCount > 0 && s.completedCount == 0 then Failed else Completed
  }

  function FinalScore(s: RunState): Option<real> {
    if s.completedCount > 0 && s.taskCount != 0 then Some(s.completedCount as real / s.taskCount as real) else None
  }

  /** The stored row of a run. */
  datatype Row = Row(status: Status, results: RunDoc, score: Option<real>, error: string)

  /** The row, the world, whether the row was written, and the state held in memory
      when the tick ended. */
  datatype Ticked = Ticked(row: Row, world: World, wrote: bool, memory: Option<RunState>)

  datatype Written = Written(row: Row, wrote: bool)

  /** The conditional write: finished runs always, others only after progress. */
  function Store(row: Row, s: RunState, progressed: bool): Written {
    if Done(s) then Written(Row(FinalStatus(s), Marshal(s), FinalScore(s), ""), true)
    else if !progressed then Written(row, false)
    else Written(row.(status := Running, results := Marshal(s)), true)
  }

  /** A tick over the row ends normally: no step of it stops out of range. */
  predicate RowInRange(row: Row, tick: Tick) {
    var s := Parse(row.status, row.results);
    s.None? || Terminal(s.value.status) || OpenInRange(s.value.tasks, tick)
  }

  const BAD_JSON := "json: cannot unmarshal"

  /** One tick all of whose writes succeed. */
  function AdvanceRow(ids: Ids, row: Row, tick: Tick, w: World): Ticked {
    match Parse(row.status, row.results)
    case None => Ticked(Row(Failed, row.results, None, BAD_JSON), w, true, None)
    case Some(s) =>
      if Terminal(s.status) then Ticked(row, w, false, Some(s))
      else
        var ran := AdvanceTasks(TaskStepsOf(ids, tick), s.tasks, |s.tasks|, w);
        var s' := Pass(s, ran.tasks);
        var stored := Store(row, s', ran.progressed);
        Ticked(stored.row, ran.world, stored.wrote, Some(s'))
  }

  /** How the database answers the writes of one tick: the error of the write of a
      step, if it fails, and whether the write that marks the run failed succeeds. */
  datatype Writes = Writes(error: Option<string>, marks: bool)

  /** A run that cannot be read or stored is marked failed, with the results it had. */
  function Mark(row: Row, error: string, writes: Writes): Written {
    if writes.marks then Written(Row(Failed, row.results, None, error), true) else Written(row, false)
  }

  /** One tick with any answers to its writes. */
  function TickRow(ids: Ids, row: Row, tick: Tick, writes: Writes, w: World): Ticked {
    var r := AdvanceRow(ids, row, tick, w);
    if !r.wrote then r
    else
      var error := if r.memory.None? then Some(BAD_JSON) else writes.error;
      if error.None? then r
      else
        var marked := Mark(row, error.value, writes);
        r.(row := marked.row, wrote := marked.wrote)
  }

  // ---- the worker itself --------------------------------------------------------------

  class Worker {
    const ids: Ids
    var row: Row
    var world: World
    var writes: nat

    constructor (ids: Ids, row: Row)
      ensures this.ids == ids && this.row == row && world == World(0, map[]) && writes == 0
    {
      this.ids, this.row, world, writes := ids, row, World(0, map[]), 0;
    }

    method AdvanceTrialAt(spec: TaskSpec, i: nat, j: nat, t: Trial, a: Answer)
      returns (trial: Trial, progressed: bool)
      requires !OutOfRange(spec, t, a)
      modifies `world
      ensures Advanced(trial, world, progressed) == AdvanceTrial(ids, spec, i, j, t, a, old(world))
    {
      trial := t;
      if trial.status.Completed? || trial.status.Failed? {
        return trial, false;
      }
      var messages := spec.messages;
      if |messages| == 0 {
        return Fail(trial, "task has no messages", a.now), true;
      }
      if trial.status.Pending? {
        if a.createError.Some? {
          return Fail(trial, a.createError.value, a.now), true;
        }
        var sid := ids(world.next);
        world := Create(ids, world, i, j);
        trial := trial.(sessionId := sid, status := Running, startedAt := a.now, messageIndex := 0);
        if a.sendError.Some? {
          return Fail(trial, a.sendError.value, a.now), true;
        }
        world := Send(world, sid, messages[0]);
        return trial, true;
      }
      if trial.sessionId == "" {
        return Fail(trial, "running trial missing session_id", a.now), true;
      }
      if trial.startedAt != "" && a.late.Some? {
        return Fail(trial, a.late.value, a.now), true;
      }
      if !a.idle {
        return trial, false;
      }
      var next := trial.messageIndex + 1;
      if next < |messages| {
        if a.sendError.Some? {
          return Fail(trial, a.sendError.value, a.now), true;
        }
        world := Send(world, trial.sessionId, messages[next]);
        return trial.(messageIndex := next), true;
      }
      return Score(spec, trial, a), true;
    }

    method AdvanceTaskAt(i: nat, t: Task, tick: Tick) returns (task: Task, progressed: bool)
      requires TrialsInRange(i, t, tick)
      modifies `world
      ensures Tasked(task, world, progressed) == AdvanceTask(ids, i, t, tick, old(world))
    {
      progressed := false;
      var trials: seq<Trial> := [];
      for j := 0 to |t.trials|
        invariant Trialed(trials, world, progressed)
               == AdvanceTrials(StepsOf(ids, t.spec, i, tick), t.trials, j, old(world))
      {
        var trial, moved := AdvanceTrialAt(t.spec, i, j, t.trials[j], tick(i, j));
        trials := trials + [trial];
        if moved {
          progressed := true;
        }
      }
      var pass, failed := 0, 0;
      for j := 0 to |trials|
        invariant pass == CountTrials(trials[..j], Completed) && failed == CountTrials(trials[..j], Failed)
      {
        assert trials[..j + 1][..j] == trials[..j];
        if trials[j].status.Completed? {
          pass := pass + 1;
        } else if trials[j].status.Failed? {
          failed := failed + 1;
        }
      }
      assert trials[..|trials|] == trials;
      task := t.(trials := trials, passCount := pass, trialTotal := |trials|);
      if pass + failed == |trials| {
        if pass == |trials| {
          task := task.(status := Completed);
        } else {
          var error := FirstError(trials);
          task := task.(status := Failed, error := if error.Some? then error.value else t.error);
        }
      } else {
        task := task.(status := Running);
      }
    }

    method AdvanceTasksAt(all: seq<Task>, tick: Tick) returns (tasks: seq<Task>, progressed: bool)
      requires OpenInRange(all, tick)
      modifies `world
      ensures Ran(tasks, world, progressed) == AdvanceTasks(TaskStepsOf(ids, tick), all, |all|, old(world))
    {
      progressed, tasks := false, [];
      for i := 0 to |all|
        invariant Ran(tasks, world, progressed) == AdvanceTasks(TaskStepsOf(ids, tick), all, i, old(world))
      {
        if !all[i].status.Pending? && !all[i].status.Running? {
          tasks := tasks + [all[i]];
          continue;
        }
        var task, moved := AdvanceTaskAt(i, all[i], tick);
        tasks := tasks + [task];
        if moved {
          progressed := true;
        }
      }
    }

    /** One run's part of a tick: a run that fails to advance is marked failed. */
    method TickRun(tick: Tick, answers: Writes)
      requires RowInRange(row, tick)
      modifies this
      ensures
        var after := TickRow(ids, old(row), tick, answers, old(world));
        && row == after.row && world == after.world
        && writes == old(writes) + if after.wrote then 1 else 0
    {
      var error := AdvanceRun(tick, answers);
      if error.Some? && answers.marks {
        row, writes := Row(Failed, row.results, None, error.value), writes + 1;
      }
    }

    /** The error is the one the run is to be marked failed with. */
    method AdvanceRun(tick: Tick, answers: Writes) returns (error: Option<string>)
      requires RowInRange(row, tick)
      modifies this
      ensures
        var after := AdvanceRow(ids, old(row), tick, old(world));
        && world == after.world
        && error == (if !after.wrote then None else if after.memory.None? then Some(BAD_JSON) else answers.error)
        && row == (if error.Some? then old(row) else after.row)
        && writes == old(writes) + if after.wrote && error.None? then 1 else 0
    {
      var parsed := ParseRunState(row.status, row.results);
      if parsed.None? {
        return Some(BAD_JSON);
      }
      var state := parsed.value;
      if state.status.Completed? || state.status.Failed? {
        return None;
      }
      if state.status.Pending? {
        state := state.(status := Running);
      }
      var tasks, progressed := AdvanceTasksAt(state.tasks, tick);
      var completed, failed := CountDone(tasks);
      state := state.(tasks := tasks, completedCount := completed, failedCount := failed);
      assert state == Pass(parsed.value, tasks);
      error := Save(state, progressed, answers);
    }

    method Save(state: RunState, progressed: bool, answers: Writes) returns (error: Option<string>)
      modifies `row, `writes
      ensures
        var stored := Store(old(row), state, progressed);
        && error == (if stored.wrote then answers.error else None)
        && row == (if error.Some? then old(row) else stored.row)
        && writes == old(writes) + if stored.wrote && error.None? then 1 else 0
    {
      if state.completedCount + state.failedCount == state.taskCount {
        var payload := MarshalRunState(state);
        if answers.error.None? {
          row, writes := Row(FinalStatus(state), payload, FinalScore(state), ""), writes + 1;
        }
        return answers.error;
      }
      if !progressed {
        return None;
      }
      var payload := MarshalRunState(state);
      if answers.error.None? {
        row, writes := row.(status := Running, results := payload), writes + 1;
      }
      return answers.error;
    }

    static method CountDone(tasks: seq<Task>) returns (completed: nat, failed: nat)
      ensures completed == CountTasks(tasks, Completed) && failed == CountTasks(tasks, Failed)
    {
      completed, failed := 0, 0;
      for i := 0 to |tasks|
        invariant completed == CountTasks(tasks[..i], Completed) && failed == CountTasks(tasks[..i], Failed)
      {
        assert tasks[..i + 1][..i] == tasks[..i];
        if tasks[i].status.Completed? {
          completed := completed + 1;
        } else if tasks[i].status.Failed? {
          failed := failed + 1;
        }
      }
      assert tasks[..|tasks|] == tasks;
    }
  }
}
