/** What the ticks of the worker add to one session. */
module EvalSends {
  import opened EvalState
  import opened EvalWorker
  import opened EvalTrials
  import opened EvalRuns

  /** The session is there, and its id will not be drawn again. */
  ghost predicate Holds(ids: Ids, w: World, sid: string) {
    sid in w.sessions && forall k | k >= w.next :: ids(k) != sid
  }

  /** The session got these messages and no others. */
  ghost predicate Got(ids: Ids, w: World, w': World, sid: string, added: seq<string>) {
    Holds(ids, w, sid) ==> Holds(ids, w', sid) && w'.sessions[sid].sent == w.sessions[sid].sent + added
  }

  lemma GotMore(ids: Ids, w: World, w': World, w'': World, sid: string, first: seq<string>, more: seq<string>)
    requires Got(ids, w, w', sid, first) && Got(ids, w', w'', sid, more)
    ensures Got(ids, w, w'', sid, first + more)
  {
    if Holds(ids, w, sid) {
      assert w.sessions[sid].sent + first + more == w.sessions[sid].sent + (first + more);
    }
  }

  lemma GotNothing(ids: Ids, w: World, sid: string)
    ensures Got(ids, w, w, sid, [])
  {
    if Holds(ids, w, sid) {
      assert w.sessions[sid].sent + [] == w.sessions[sid].sent;
    }
  }

  // ---- one trial --------------------------------------------------------------------

  /** A running trial is sent its next message in this tick. */
  predicate Sends(spec: TaskSpec, t: Trial, a: Answer) {
    && t.status.Running? && t.sessionId != "" && 0 <= t.messageIndex + 1 < |spec.messages|
    && (t.startedAt == "" || a.late.None?) && a.idle && a.sendError.None?
  }

  /** The message after the trial's index; "" when there is none. */
  function NextMessage(spec: TaskSpec, t: Trial): string {
    if 0 <= t.messageIndex + 1 < |spec.messages| then spec.messages[t.messageIndex + 1] else ""
  }

  function SentBy(spec: TaskSpec, t: Trial, a: Answer): seq<string> {
    if Sends(spec, t, a) then [NextMessage(spec, t)] else []
  }

  /** A step sends nothing to another trial's session. */
  lemma OtherTrialSends(ids: Ids, spec: TaskSpec, i: nat, j: nat, t: Trial, a: Answer, w: World, sid: string)
    requires NeverRepeats(ids) && t.sessionId != sid
    ensures Got(ids, w, AdvanceTrial(ids, spec, i, j, t, a, w).world, sid, [])
  {
    GotNothing(ids, w, sid);
  }

  lemma OwnTrialSends(ids: Ids, spec: TaskSpec, i: nat, j: nat, t: Trial, a: Answer, w: World)
    requires t.status.Running? && t.sessionId != ""
    ensures Got(ids, w, AdvanceTrial(ids, spec, i, j, t, a, w).world, t.sessionId, SentBy(spec, t, a))
  {
    GotNothing(ids, w, t.sessionId);
  }

  // ---- the trials of a task ------------------------------------------------------------

  /** A step of the j-th trial sends the session these messages, in any world. */
  ghost predicate AddsAt(ids: Ids, sid: string, step: TrialStep, j: nat, t: Trial, w: World, added: seq<string>) {
    Got(ids, w, step(j, t, w).world, sid, added)
  }

  /** Only the j-th of several adds anything. */
  function Only(j: nat, added: seq<string>, m: nat): seq<string> { if m == j then added else [] }

  function SoFar(j: nat, added: seq<string>, n: nat): seq<string> { if j < n then added else [] }

  lemma OneUp(j: nat, added: seq<string>, n: nat)
    ensures SoFar(j, added, n) + Only(j, added, n) == SoFar(j, added, n + 1)
  {
  }

  lemma {:induction false} TrialsAdd(ids: Ids, sid: string, step: TrialStep, trials: seq<Trial>, n: nat, w: World,
        j: nat, added: seq<string>)
    requires n <= |trials|
    requires forall m: nat, w' | m < n :: AddsAt(ids, sid, step, m, trials[m], w', Only(j, added, m))
    ensures Got(ids, w, AdvanceTrials(step, trials, n, w).world, sid, SoFar(j, added, n))
  {
    if n == 0 {
      GotNothing(ids, w, sid);
    } else {
      TrialsAdd(ids, sid, step, trials, n - 1, w, j, added);
      var b := AdvanceTrials(step, trials, n - 1, w);
      assert AddsAt(ids, sid, step, n - 1, trials[n - 1], b.world, Only(j, added, n - 1));
      OneUp(j, added, n - 1);
      GotMore(ids, w, b.world, step(n - 1, trials[n - 1], b.world).world, sid,
              SoFar(j, added, n - 1), Only(j, added, n - 1));
    }
  }

  /** Among all trials of the tasks only the j-th of the i-th has this session. */
  ghost predicate Alone(tasks: seq<Task>, sid: string, i: nat, j: nat) {
    forall i': nat, j': nat | i' < |tasks| && j' < |tasks[i'].trials| && (i' != i || j' != j) ::
      tasks[i'].trials[j'].sessionId != sid
  }

  /** What the session of the j-th trial of the i-th task is sent in a tick. */
  function Added(tasks: seq<Task>, i: nat, j: nat, tick: Tick): seq<string>
    requires i < |tasks| && j < |tasks[i].trials|
  {
    SentBy(tasks[i].spec, tasks[i].trials[j], tick(i, j))
  }

  lemma OtherTaskAdds(ids: Ids, tasks: seq<Task>, tick: Tick, w: World, sid: string, i: nat, j: nat, m: nat)
    requires NeverRepeats(ids) && Alone(tasks, sid, i, j) && m < |tasks| && m != i
    ensures Got(ids, w, AdvanceTask(ids, m, tasks[m], tick, w).world, sid, [])
  {
    var task := tasks[m];
    var step := StepsOf(ids, task.spec, m, tick);
    forall j': nat, w' | j' < |task.trials|
      ensures AddsAt(ids, sid, step, j', task.trials[j'], w', Only(|task.trials|, [], j'))
    {
      OtherTrialSends(ids, task.spec, m, j', task.trials[j'], tick(m, j'), w', sid);
    }
    TrialsAdd(ids, sid, step, task.trials, |task.trials|, w, |task.trials|, []);
  }

  lemma OwnTaskAdds(ids: Ids, tasks: seq<Task>, tick: Tick, w: World, i: nat, j: nat)
    requires NeverRepeats(ids) && i < |tasks| && j < |tasks[i].trials|
    requires tasks[i].trials[j].status.Running? && tasks[i].trials[j].sessionId != ""
    requires Alone(tasks, tasks[i].trials[j].sessionId, i, j)
    ensures Got(ids, w, AdvanceTask(ids, i, tasks[i], tick, w).world, tasks[i].trials[j].sessionId,
                Added(tasks, i, j, tick))
  {
    var task, added := tasks[i], Added(tasks, i, j, tick);
    var step, sid := StepsOf(ids, task.spec, i, tick), task.trials[j].sessionId;
    forall m: nat, w' | m < |task.trials| ensures AddsAt(ids, sid, step, m, task.trials[m], w', Only(j, added, m)) {
      if m == j {
        OwnTrialSends(ids, task.spec, i, j, task.trials[j], tick(i, j), w');
      } else {
        OtherTrialSends(ids, task.spec, i, m, task.trials[m], tick(i, m), w', sid);
      }
    }
    TrialsAdd(ids, sid, step, task.trials, |task.trials|, w, j, added);
  }

  // ---- the tasks of a run ----------------------------------------------------------------

  ghost predicate TaskAddsAt(ids: Ids, sid: string, step: TaskStep, i: nat, task: Task, w: World, added: seq<string>) {
    Got(ids, w, step(i, task, w).world, sid, added)
  }

  lemma {:induction false} TasksAdd(ids: Ids, sid: string, step: TaskStep, tasks: seq<Task>, n: nat, w: World,
        i: nat, added: seq<string>)
    requires n <= |tasks|
    requires forall m: nat, w' | m < n :: TaskAddsAt(ids, sid, step, m, tasks[m], w', Only(i, added, m))
    ensures Got(ids, w, AdvanceTasks(step, tasks, n, w).world, sid, SoFar(i, added, n))
  {
    if n == 0 {
      GotNothing(ids, w, sid);
    } else {
      TasksAdd(ids, sid, step, tasks, n - 1, w, i, added);
      var b := AdvanceTasks(step, tasks, n - 1, w);
      assert TaskAddsAt(ids, sid, step, n - 1, tasks[n - 1], b.world, Only(i, added, n - 1));
      OneUp(i, added, n - 1);
      GotMore(ids, w, b.world, step(n - 1, tasks[n - 1], b.world).world, sid,
              SoFar(i, added, n - 1), Only(i, added, n - 1));
    }
  }

  /** In a pass over the tasks the session of an open task's running trial is sent that
      trial's next message, exactly if it sends, and nothing else; in any world. */
  lemma PassAdds(ids: Ids, tasks: seq<Task>, tick: Tick, w: World, i: nat, j: nat)
    requires NeverRepeats(ids) && i < |tasks| && j < |tasks[i].trials| && Open(tasks[i].status)
    requires tasks[i].trials[j].status.Running? && tasks[i].trials[j].sessionId != ""
    requires Alone(tasks, tasks[i].trials[j].sessionId, i, j)
    ensures Got(ids, w, AdvanceTasks(TaskStepsOf(ids, tick), tasks, |tasks|, w).world, tasks[i].trials[j].sessionId,
                Added(tasks, i, j, tick))
  {
    var step, sid, added := TaskStepsOf(ids, tick), tasks[i].trials[j].sessionId, Added(tasks, i, j, tick);
    forall m: nat, w' | m < |tasks| ensures TaskAddsAt(ids, sid, step, m, tasks[m], w', Only(i, added, m)) {
      if m == i {
        OwnTaskAdds(ids, tasks, tick, w', i, j);
      } else if Open(tasks[m].status) {
        OtherTaskAdds(ids, tasks, tick, w', sid, i, j, m);
      } else {
        GotNothing(ids, w', sid);
      }
    }
    TasksAdd(ids, sid, step, tasks, |tasks|, w, i, added);
  }

  /** In a consistent state a running trial's task is open, and its session, which is
      there for good, is no other trial's. */
  lemma RunningAlone(ids: Ids, w: World, tasks: seq<Task>, i: nat, j: nat)
    requires WorldOk(ids, w) && TasksOk(w, tasks)
    requires i < |tasks| && j < |tasks[i].trials| && tasks[i].trials[j].status.Running?
    ensures Open(tasks[i].status) && tasks[i].trials[j].sessionId != ""
    ensures Holds(ids, w, tasks[i].trials[j].sessionId) && Alone(tasks, tasks[i].trials[j].sessionId, i, j)
  {
    var sid := tasks[i].trials[j].sessionId;
    assert TaskOk(w, i, tasks[i]) && TrialOk(w, tasks[i].spec, i, j, tasks[i].trials[j]);
    TaskDone(w, i, tasks[i]);
    AheadCounts(w, tasks[i].spec, i, tasks[i].trials);
    forall i': nat, j': nat | i' < |tasks| && j' < |tasks[i'].trials| && (i' != i || j' != j)
      ensures tasks[i'].trials[j'].sessionId != sid
    {
      assert TaskOk(w, i', tasks[i']) && TrialOk(w, tasks[i'].spec, i', j', tasks[i'].trials[j']);
    }
  }
}
