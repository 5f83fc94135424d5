/** An eval run in memory. */
module EvalState {
  import opened Text

  /** The status strings the worker knows, and any other ("" when absent). */
  datatype Status = Pending | Running | Completed | Failed | Unknown(text: string)

  datatype Rubric = Rubric(description: string, criteria: seq<string>)

  datatype TaskSpec = TaskSpec(id: string, messages: seq<string>, rubric: Option<Rubric>, timeoutMs: int)

  datatype Trial = Trial(
    index: int, status: Status, sessionId: string, messageIndex: int,
    startedAt: string, endedAt: string, trajectoryId: string, reward: real, error: string)

  datatype Task = Task(
    id: string, spec: TaskSpec, status: Status, trials: seq<Trial>,
    trialTotal: int, passCount: int, error: string)

  datatype RunState = RunState(
    status: Status, taskCount: int, completedCount: int, failedCount: int, tasks: seq<Task>)

  predicate Terminal(status: Status) { status.Completed? || status.Failed? }
}
