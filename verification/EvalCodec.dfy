/** The stored form of an eval run, and when storing it loses nothing. */
module EvalCodec {
  import opened Folds
  import opened Text
  import opened EvalState

  // ---- the stored form: JSON decoded one known key at a time --------------------

  /** A value where text or a number is looked for; Other is any other JSON. */
  datatype Scalar = Absent | Str(s: string) | Num(n: real) | Other

  datatype Items<T> = NotArray | Items(items: seq<T>)

  datatype RubricDoc = NoRubric | RubricDoc(description: Scalar, criteria: Items<Scalar>)

  datatype SpecDoc = NoSpec | SpecDoc(id: Scalar, messages: Items<Scalar>, rubric: RubricDoc, timeoutMs: Scalar)

  datatype TrialDoc =
    | NoTrial
    | TrialDoc(index: Scalar, status: Status, sessionId: Scalar, messageIndex: Scalar, startedAt: Scalar,
               endedAt: Scalar, trajectoryId: Scalar, reward: Scalar, error: Scalar)

  datatype TaskDoc =
    | NoTask
    | TaskDoc(id: Scalar, spec: SpecDoc, status: Status, trials: Items<TrialDoc>,
              trialTotal: Scalar, passCount: Scalar, error: Scalar)

  /** Null stands for an empty column or a JSON null, Invalid for anything that is
      not an object either. */
  datatype RunDoc =
    | Invalid
    | Null
    | RunDoc(taskCount: Scalar, completedCount: Scalar, failedCount: Scalar, tasks: Items<TaskDoc>)

  function StrVal(v: Scalar): string { if v.Str? then v.s else "" }

  /** int(n): truncation toward zero. */
  function AsInt(v: Scalar): int {
    if !v.Num? then 0 else if v.n >= 0.0 then v.n.Floor else -(-v.n).Floor
  }

  function AsFloat(v: Scalar): real { if v.Num? then v.n else 0.0 }

  function List<T>(items: Items<T>): seq<T> { if items.Items? then items.items else [] }

  function Int(n: int): Scalar { Num(n as real) }

  function When(keep: bool, v: Scalar): Scalar { if keep then v else Absent }

  // ---- parse ------------------------------------------------------------------

  function ParseText(v: Scalar): seq<string> { if v.Str? then [v.s] else [] }

  function ParseCriterion(v: Scalar): seq<string> { if v.Str? && v.s != "" then [v.s] else [] }

  function ParseRubric(d: RubricDoc): Option<Rubric> {
    if d.NoRubric? then None
    else Some(Rubric(StrVal(d.description), Gather(ParseCriterion, List(d.criteria))))
  }

  function ParseSpec(d: SpecDoc): TaskSpec {
    if d.NoSpec? then TaskSpec("", [], None, 0)
    else TaskSpec(StrVal(d.id), Gather(ParseText, List(d.messages)), ParseRubric(d.rubric), AsInt(d.timeoutMs))
  }

  function ParseTrial(d: TrialDoc): seq<Trial> {
    if d.NoTrial? then []
    else
      [Trial(AsInt(d.index), d.status, StrVal(d.sessionId), AsInt(d.messageIndex), StrVal(d.startedAt),
             StrVal(d.endedAt), StrVal(d.trajectoryId), AsFloat(d.reward), StrVal(d.error))]
  }

  function ParseTask(d: TaskDoc): seq<Task> {
    if d.NoTask? then []
    else
      [Task(StrVal(d.id), ParseSpec(d.spec), d.status, Gather(ParseTrial, List(d.trials)),
            AsInt(d.trialTotal), AsInt(d.passCount), StrVal(d.error))]
  }

  /** None when the stored text is neither an object nor null. */
  function Parse(status: Status, d: RunDoc): Option<RunState> {
    match d
    case Invalid => None
    case Null => Some(RunState(status, 0, 0, 0, []))
    case RunDoc(_, _, _, _) =>
      var tasks := Gather(ParseTask, List(d.tasks));
      var count := AsInt(d.taskCount);
      Some(RunState(status, if count == 0 then |tasks| else count,
                    AsInt(d.completedCount), AsInt(d.failedCount), tasks))
  }

  // ---- marshal ----------------------------------------------------------------

  function MarshalText(s: string): seq<Scalar> { [Str(s)] }

  function MarshalRubric(r: Option<Rubric>): RubricDoc {
    if r.None? then NoRubric
    else
      RubricDoc(Str(r.value.description),
                if r.value.criteria == [] then NotArray else Items(Gather(MarshalText, r.value.criteria)))
  }

  function MarshalSpec(s: TaskSpec): SpecDoc {
    SpecDoc(Str(s.id), Items(Gather(MarshalText, s.messages)), MarshalRubric(s.rubric),
            When(s.timeoutMs != 0, Int(s.timeoutMs)))
  }

  function MarshalTrial(t: Trial): seq<TrialDoc> {
    [TrialDoc(
      Int(t.index), t.status, When(t.sessionId != "", Str(t.sessionId)),
      When(t.messageIndex > 0, Int(t.messageIndex)), When(t.startedAt != "", Str(t.startedAt)),
      When(t.endedAt != "", Str(t.endedAt)), When(t.trajectoryId != "", Str(t.trajectoryId)),
      When(t.reward > 0.0 || t.status.Failed?, Num(t.reward)), When(t.error != "", Str(t.error)))]
  }

  function MarshalTask(t: Task): seq<TaskDoc> {
    [TaskDoc(
      Str(t.id), MarshalSpec(t.spec), t.status, Items(Gather(MarshalTrial, t.trials)),
      When(t.trialTotal > 0, Int(t.trialTotal)), When(t.passCount > 0, Int(t.passCount)),
      When(t.error != "", Str(t.error)))]
  }

  function Marshal(s: RunState): RunDoc {
    RunDoc(Int(s.taskCount), Int(s.completedCount), Int(s.failedCount), Items(Gather(MarshalTask, s.tasks)))
  }

  // ---- key by key ----------------------------------------------------------------

  /** A number is cut toward zero, anything else counts as 0. */
  lemma CutTowardZero(v: Scalar)
    ensures
      var x := if v.Num? then v.n else 0.0;
      var n := AsInt(v) as real;
      if x < 0.0 then x <= n <= 0.0 && n < x + 1.0 else 0.0 <= n <= x && x < n + 1.0
  {
  }

  /** Every key of a stored trial is read into its own field. */
  lemma TrialKeys(index: Scalar, status: Status, session: string, message: Scalar, started: string, ended: string,
        trajectory: string, reward: real, error: string)
    ensures
      var d := TrialDoc(index, status, Str(session), message, Str(started), Str(ended), Str(trajectory),
                        Num(reward), Str(error));
      ParseTrial(d) ==
      [Trial(AsInt(index), status, session, AsInt(message), started, ended, trajectory, reward, error)]
    ensures ParseTrial(TrialDoc(Absent, status, Absent, Absent, Absent, Absent, Absent, Absent, Absent))
         == [Trial(0, status, "", 0, "", "", "", 0.0, "")]
  {
  }

  /** Of a stored specification. */
  lemma SpecKeys(id: string, messages: Items<Scalar>, description: string, criteria: Items<Scalar>, timeout: Scalar)
    ensures
      var spec := ParseSpec(SpecDoc(Str(id), messages, RubricDoc(Str(description), criteria), timeout));
      && spec.id == id && spec.timeoutMs == AsInt(timeout)
      && spec.messages == Gather(ParseText, List(messages))
      && spec.rubric == Some(Rubric(description, Gather(ParseCriterion, List(criteria))))
    ensures ParseSpec(SpecDoc(Absent, messages, NoRubric, Absent))
         == TaskSpec("", Gather(ParseText, List(messages)), None, 0)
  {
  }

  /** Of a stored task. */
  lemma TaskKeys(id: string, spec: SpecDoc, status: Status, trials: Items<TrialDoc>, total: Scalar, pass: Scalar,
        error: string)
    ensures ParseTask(TaskDoc(Str(id), spec, status, trials, total, pass, Str(error)))
         == [Task(id, ParseSpec(spec), status, Gather(ParseTrial, List(trials)), AsInt(total), AsInt(pass), error)]
  {
  }

  /** Of a stored run; a missing or zero count becomes that of its tasks. */
  lemma RunKeys(status: Status, count: Scalar, completed: Scalar, failed: Scalar, items: Items<TaskDoc>)
    ensures
      var tasks := Gather(ParseTask, List(items));
      Parse(status, RunDoc(count, completed, failed, items)) ==
      Some(RunState(status, if AsInt(count) != 0 then AsInt(count) else |tasks|,
                    AsInt(completed), AsInt(failed), tasks))
    ensures Parse(status, Invalid).None? && Parse(status, Null) == Some(RunState(status, 0, 0, 0, []))
  {
  }

  /** Lists are read item by item: what is no object, no text or a blank criterion is
      dropped, and so is what stands where a list should. */
  lemma ListKeys(messages: seq<Scalar>, message: Scalar, criteria: seq<Scalar>, criterion: Scalar)
    ensures List(Items(messages)) == messages && List<Scalar>(NotArray) == []
    ensures Gather(ParseText, messages + [message])
         == if message.Str? then Gather(ParseText, messages) + [message.s] else Gather(ParseText, messages)
    ensures Gather(ParseCriterion, criteria + [criterion])
         == if criterion.Str? && criterion.s != "" then Gather(ParseCriterion, criteria) + [criterion.s]
            else Gather(ParseCriterion, criteria)
  {
    GatherMore(ParseText, messages, message);
    GatherMore(ParseCriterion, criteria, criterion);
  }

  lemma DocsKeys(trials: seq<TrialDoc>, trial: TrialDoc, tasks: seq<TaskDoc>, task: TaskDoc)
    ensures Gather(ParseTrial, trials + [trial])
         == if trial.NoTrial? then Gather(ParseTrial, trials) else Gather(ParseTrial, trials) + ParseTrial(trial)
    ensures Gather(ParseTask, tasks + [task])
         == if task.NoTask? then Gather(ParseTask, tasks) else Gather(ParseTask, tasks) + ParseTask(task)
  {
    GatherMore(ParseTrial, trials, trial);
    GatherMore(ParseTask, tasks, task);
  }

  // ---- the loops that do it ---------------------------------------------------

  method ParseRunState(status: Status, d: RunDoc) returns (state: Option<RunState>)
    ensures state == Parse(status, d)
  {
    match d {
      case Invalid => return None;
      case Null => return Some(RunState(status, 0, 0, 0, []));
      case RunDoc(_, _, _, _) =>
    }
    var raw, tasks: seq<Task> := List(d.tasks), [];
    for i := 0 to |raw|
      invariant tasks == Gather(ParseTask, raw[..i])
    {
      assert raw[..i + 1][..i] == raw[..i];
      if raw[i].NoTask? {
        assert tasks + [] == tasks;
        continue;
      }
      var rawTrials, trials: seq<Trial> := List(raw[i].trials), [];
      for k := 0 to |rawTrials|
        invariant trials == Gather(ParseTrial, rawTrials[..k])
      {
        assert rawTrials[..k + 1][..k] == rawTrials[..k];
        if rawTrials[k].NoTrial? {
          assert trials + [] == trials;
          continue;
        }
        trials := trials + ParseTrial(rawTrials[k]);
      }
      assert rawTrials[..|rawTrials|] == rawTrials;
      tasks := tasks + [Task(StrVal(raw[i].id), ParseSpec(raw[i].spec), raw[i].status, trials,
                             AsInt(raw[i].trialTotal), AsInt(raw[i].passCount), StrVal(raw[i].error))];
    }
    assert raw[..|raw|] == raw;
    var count := AsInt(d.taskCount);
    if count == 0 {
      count := |tasks|;
    }
    return Some(RunState(status, count, AsInt(d.completedCount), AsInt(d.failedCount), tasks));
  }

  method MarshalRunState(state: RunState) returns (d: RunDoc)
    ensures d == Marshal(state)
  {
    var tasks: seq<TaskDoc> := [];
    for i := 0 to |state.tasks|
      invariant tasks == Gather(MarshalTask, state.tasks[..i])
    {
      var task := state.tasks[i];
      assert state.tasks[..i + 1][..i] == state.tasks[..i];
      var trials: seq<TrialDoc> := [];
      for k := 0 to |task.trials|
        invariant trials == Gather(MarshalTrial, task.trials[..k])
      {
        assert task.trials[..k + 1][..k] == task.trials[..k];
        trials := trials + MarshalTrial(task.trials[k]);
      }
      assert task.trials[..|task.trials|] == task.trials;
      tasks := tasks + [TaskDoc(
        Str(task.id), MarshalSpec(task.spec), task.status, Items(trials),
        When(task.trialTotal > 0, Int(task.trialTotal)), When(task.passCount > 0, Int(task.passCount)),
        When(task.error != "", Str(task.error)))];
    }
    assert state.tasks[..|state.tasks|] == state.tasks;
    return RunDoc(Int(state.taskCount), Int(state.completedCount), Int(state.failedCount), Items(tasks));
  }

  // ---- round trips ------------------------------------------------------------

  predicate NormalTrial(t: Trial) { t.messageIndex >= 0 && (t.reward >= 0.0 || t.status.Failed?) }

  predicate NormalTask(t: Task) {
    && t.trialTotal >= 0 && t.passCount >= 0
    && (t.spec.rubric.Some? ==> "" !in t.spec.rubric.value.criteria)
    && forall trial | trial in t.trials :: NormalTrial(trial)
  }

  /** What the stored form can carry. */
  predicate Normal(s: RunState) {
    && (s.taskCount == 0 ==> s.tasks == [])
    && forall task | task in s.tasks :: NormalTask(task)
  }

  lemma IntTrip(n: int)
    ensures AsInt(Int(n)) == n
  {
    assert (n as real).Floor == n;
    assert -(n as real) == (-n) as real;
    assert (-(n as real)).Floor == -n;
  }

  function TripTrial(t: Trial): Trial { ParseTrial(MarshalTrial(t)[0])[0] }

  lemma TrialTrip(t: Trial)
    ensures TripTrial(t) == t <==> NormalTrial(t)
  {
    IntTrip(t.index);
    IntTrip(t.messageIndex);
  }

  lemma TextsTrip(texts: seq<string>)
    ensures Gather(ParseText, Gather(MarshalText, texts)) == texts
  {
    EachSurvives(MarshalText, ParseText, (s: string) => s, texts);
  }

  lemma {:induction false} CriteriaTrip(texts: seq<string>)
    ensures |Gather(ParseCriterion, Gather(MarshalText, texts))| <= |texts|
    ensures Gather(ParseCriterion, Gather(MarshalText, texts)) == texts <==> "" !in texts
  {
    if texts != [] {
      var init, last := texts[..|texts| - 1], texts[|texts| - 1];
      assert texts == init + [last];
      CriteriaTrip(init);
      GatherExtends(MarshalText, init, last);
      GatherExtends(ParseCriterion, Gather(MarshalText, init), Str(last));
    }
  }

  lemma SpecTrip(s: TaskSpec)
    ensures ParseSpec(MarshalSpec(s)) == s <==> (s.rubric.Some? ==> "" !in s.rubric.value.criteria)
  {
    TextsTrip(s.messages);
    IntTrip(s.timeoutMs);
    if s.rubric.Some? {
      CriteriaTrip(s.rubric.value.criteria);
    }
  }

  lemma TrialsTrip(trials: seq<Trial>)
    ensures Gather(ParseTrial, Gather(MarshalTrial, trials)) == trials <==> forall t | t in trials :: NormalTrial(t)
  {
    EachSurvives(MarshalTrial, ParseTrial, TripTrial, trials);
    forall t | t in trials ensures TripTrial(t) == t <==> NormalTrial(t) { TrialTrip(t); }
  }

  function TripTask(t: Task): Task { ParseTask(MarshalTask(t)[0])[0] }

  lemma TaskTrip(t: Task)
    ensures TripTask(t) == t <==> NormalTask(t)
  {
    SpecTrip(t.spec);
    TrialsTrip(t.trials);
    IntTrip(t.trialTotal);
    IntTrip(t.passCount);
  }

  lemma TasksTrip(tasks: seq<Task>)
    ensures Gather(ParseTask, Gather(MarshalTask, tasks)) == tasks <==> forall t | t in tasks :: NormalTask(t)
    ensures |Gather(ParseTask, Gather(MarshalTask, tasks))| == |tasks|
  {
    EachSurvives(MarshalTask, ParseTask, TripTask, tasks);
    forall t | t in tasks ensures TripTask(t) == t <==> NormalTask(t) { TaskTrip(t); }
  }

  /** A run state survives being stored exactly when it is normal. */
  lemma RoundTrip(s: RunState)
    ensures Parse(s.status, Marshal(s)) == Some(s) <==> Normal(s)
  {
    TasksTrip(s.tasks);
    IntTrip(s.taskCount);
    IntTrip(s.completedCount);
    IntTrip(s.failedCount);
  }

  /** What was once parsed and stored parses to the same again, exactly when its
      numeric trial and task fields are not negative where they would be dropped. */
  lemma ParseMarshalParse(status: Status, d: RunDoc)
    requires Parse(status, d).Some?
    ensures
      var s := Parse(status, d).value;
      Parse(status, Marshal(s)) == Some(s) <==>
        forall task | task in s.tasks ::
          task.trialTotal >= 0 && task.passCount >= 0 && forall t | t in task.trials :: NormalTrial(t)
  {
    var s := Parse(status, d).value;
    RoundTrip(s);
    forall task | task in s.tasks
      ensures task.spec.rubric.Some? ==> "" !in task.spec.rubric.value.criteria
    {
      ParsedCriteria(List(d.tasks), task);
    }
  }

  lemma {:induction false} NoBlankCriterion(items: seq<Scalar>)
    ensures "" !in Gather(ParseCriterion, items)
  {
    if items != [] {
      NoBlankCriterion(items[..|items| - 1]);
    }
  }

  lemma {:induction false} ParsedCriteria(items: seq<TaskDoc>, task: Task)
    requires task in Gather(ParseTask, items)
    ensures task.spec.rubric.Some? ==> "" !in task.spec.rubric.value.criteria
  {
    var last := items[|items| - 1];
    if task in ParseTask(last) {
      if last.spec.SpecDoc? && last.spec.rubric.RubricDoc? {
        NoBlankCriterion(List(last.spec.rubric.criteria));
      }
    } else {
      ParsedCriteria(items[..|items| - 1], task);
    }
  }
}
