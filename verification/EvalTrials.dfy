/** What one tick keeps of the trials of one task. */
module EvalTrials {
  import opened EvalState
  import opened EvalWorker

  predicate SessionIs(w: World, sid: string, i: nat, j: nat, sent: seq<string>) {
    sid != "" && sid in w.sessions && w.sessions[sid] == Session(i, j, sent)
  }

  /** The message order: a running trial at index k was sent exactly messages 0..k,
      in order and once each, a completed one all of them, a failed one a prefix. */
  predicate TrialOk(w: World, spec: TaskSpec, i: nat, j: nat, t: Trial) {
    && t.messageIndex >= 0 && t.reward >= 0.0 && !t.status.Unknown?
    && (t.status.Pending? ==> t.sessionId == "")
    && (t.status.Running? ==>
          t.messageIndex < |spec.messages| && SessionIs(w, t.sessionId, i, j, spec.messages[..t.messageIndex + 1]))
    && (t.status.Completed? ==> SessionIs(w, t.sessionId, i, j, spec.messages))
    && (t.status.Failed? && t.sessionId != "" ==>
          t.sessionId in w.sessions && w.sessions[t.sessionId].sent <= spec.messages
          && w.sessions[t.sessionId].task == i && w.sessions[t.sessionId].trial == j)
  }

  /** Session ids still to be drawn are unused. */
  ghost predicate WorldOk(ids: Ids, w: World) {
    forall k | k >= w.next :: ids(k) !in w.sessions
  }

  /** Sessions of other trials are as they were. */
  ghost predicate OthersKept(w: World, w': World, i: nat, j: nat) {
    forall sid | sid in w.sessions && !(w.sessions[sid].task == i && w.sessions[sid].trial == j) ::
      sid in w'.sessions && w'.sessions[sid] == w.sessions[sid]
  }

  /** Sessions of other tasks are as they were. */
  ghost predicate OtherTasksKept(w: World, w': World, i: nat) {
    forall sid | sid in w.sessions && w.sessions[sid].task != i ::
      sid in w'.sessions && w'.sessions[sid] == w.sessions[sid]
  }

  /** Steps a trial still has ahead: one per message and one to finish. */
  function Ahead(spec: TaskSpec, t: Trial): int {
    if t.status.Pending? then |spec.messages| + 1
    else if t.status.Running? then |spec.messages| - t.messageIndex
    else 0
  }

  lemma StartKeeps(ids: Ids, spec: TaskSpec, i: nat, j: nat, t: Trial, a: Answer, w: World)
    requires NeverRepeats(ids) && WorldOk(ids, w) && TrialOk(w, spec, i, j, t)
    requires t.status.Pending? && spec.messages != []
    ensures
      var r := StartTrial(ids, spec, i, j, t, a, w);
      && TrialOk(r.world, spec, i, j, r.trial) && WorldOk(ids, r.world) && OthersKept(w, r.world, i, j)
  {
    var sid := ids(w.next);
    assert sid != "" && sid !in w.sessions;
    var w' := Create(ids, w, i, j);
    assert WorldOk(ids, w') by {
      forall k | k >= w'.next ensures ids(k) !in w'.sessions {
        assert ids(k) != ids(w.next);
      }
    }
    assert spec.messages[..1] == [] + [spec.messages[0]];
  }

  lemma SendKeeps(ids: Ids, spec: TaskSpec, i: nat, j: nat, t: Trial, w: World)
    requires WorldOk(ids, w) && TrialOk(w, spec, i, j, t)
    requires t.status.Running? && t.messageIndex + 1 < |spec.messages|
    ensures
      var w' := Send(w, t.sessionId, spec.messages[t.messageIndex + 1]);
      && TrialOk(w', spec, i, j, t.(messageIndex := t.messageIndex + 1))
      && WorldOk(ids, w') && OthersKept(w, w', i, j)
  {
    var k := t.messageIndex;
    assert spec.messages[..k + 2] == spec.messages[..k + 1] + [spec.messages[k + 1]];
  }

  lemma TrialKeeps(ids: Ids, spec: TaskSpec, i: nat, j: nat, t: Trial, a: Answer, w: World)
    requires NeverRepeats(ids) && WorldOk(ids, w) && TrialOk(w, spec, i, j, t)
    ensures
      var r := AdvanceTrial(ids, spec, i, j, t, a, w);
      && TrialOk(r.world, spec, i, j, r.trial) && WorldOk(ids, r.world) && OthersKept(w, r.world, i, j)
      && !r.trial.status.Pending?
  {
    if Terminal(t.status) || spec.messages == [] {
    } else if t.status.Pending? {
      StartKeeps(ids, spec, i, j, t, a, w);
    } else if t.messageIndex + 1 < |spec.messages| {
      SendKeeps(ids, spec, i, j, t, w);
    } else {
      assert spec.messages[..t.messageIndex + 1] == spec.messages;
    }
  }

  /** One step keeps the trial it moves and the sessions of all others. */
  ghost predicate KeepsAt(ids: Ids, spec: TaskSpec, i: nat, step: TrialStep, j: nat, t: Trial, w: World) {
    var r := step(j, t, w);
    WorldOk(ids, w) && TrialOk(w, spec, i, j, t) ==>
      && TrialOk(r.world, spec, i, j, r.trial) && WorldOk(ids, r.world) && OthersKept(w, r.world, i, j)
      && !r.trial.status.Pending?
  }

  /** One step progresses exactly when it comes nearer to the trial's end, otherwise
      changes nothing, and leaves terminal trials alone. */
  ghost predicate ProgressesAt(spec: TaskSpec, i: nat, step: TrialStep, j: nat, t: Trial, w: World) {
    var r := step(j, t, w);
    TrialOk(w, spec, i, j, t) ==>
      && (r.progressed ==> Ahead(spec, r.trial) < Ahead(spec, t))
      && (!r.progressed ==> r.trial == t && r.world == w)
      && (Terminal(t.status) ==> r.trial == t)
      && (t.status.Pending? ==> r.progressed)
  }

  ghost predicate Keeps(ids: Ids, spec: TaskSpec, i: nat, step: TrialStep) {
    forall j: nat, t, w :: KeepsAt(ids, spec, i, step, j, t, w)
  }

  ghost predicate Progresses(spec: TaskSpec, i: nat, step: TrialStep) {
    forall j: nat, t, w :: ProgressesAt(spec, i, step, j, t, w)
  }

  lemma StepsGood(ids: Ids, spec: TaskSpec, i: nat, tick: Tick)
    requires NeverRepeats(ids)
    ensures Keeps(ids, spec, i, StepsOf(ids, spec, i, tick))
    ensures Progresses(spec, i, StepsOf(ids, spec, i, tick))
  {
    var step := StepsOf(ids, spec, i, tick);
    forall j: nat, t, w ensures KeepsAt(ids, spec, i, step, j, t, w) {
      if WorldOk(ids, w) && TrialOk(w, spec, i, j, t) {
        TrialKeeps(ids, spec, i, j, t, tick(i, j), w);
      }
    }
    forall j: nat, t, w ensures ProgressesAt(spec, i, step, j, t, w) {
      if TrialOk(w, spec, i, j, t) {
        TrialProgress(ids, spec, i, j, t, tick(i, j), w);
      }
    }
  }

  lemma TrialProgress(ids: Ids, spec: TaskSpec, i: nat, j: nat, t: Trial, a: Answer, w: World)
    requires TrialOk(w, spec, i, j, t)
    ensures
      var r := AdvanceTrial(ids, spec, i, j, t, a, w);
      && (r.progressed ==> Ahead(spec, r.trial) < Ahead(spec, t))
      && (!r.progressed ==> r.trial == t && r.world == w)
      && (Terminal(t.status) ==> r.trial == t)
      && (t.status.Pending? || (!Terminal(t.status) && a.idle) ==> r.progressed)
  {
  }

  lemma OtherTrialOk(w: World, w': World, i: nat, j: nat, spec: TaskSpec, i': nat, j': nat, t: Trial)
    requires OthersKept(w, w', i, j) && (i', j') != (i, j) && TrialOk(w, spec, i', j', t)
    ensures TrialOk(w', spec, i', j', t)
  {
  }

  // ---- all trials of a task ---------------------------------------------------------

  ghost predicate TrialsOk(w: World, spec: TaskSpec, i: nat, trials: seq<Trial>) {
    forall j: nat | j < |trials| :: TrialOk(w, spec, i, j, trials[j])
  }

  function TotalAhead(spec: TaskSpec, trials: seq<Trial>): int {
    if trials == [] then 0
    else TotalAhead(spec, trials[..|trials| - 1]) + Ahead(spec, trials[|trials| - 1])
  }

  /** The first n advanced trials followed by the rest as they were. */
  ghost function Mixed(step: TrialStep, trials: seq<Trial>, n: nat, w: World): seq<Trial>
    requires n <= |trials|
  {
    AdvanceTrials(step, trials, n, w).trials + trials[n..]
  }

  lemma {:induction false} TrialsKeep(ids: Ids, spec: TaskSpec, i: nat, step: TrialStep,
        trials: seq<Trial>, n: nat, w: World)
    requires Keeps(ids, spec, i, step)
    requires WorldOk(ids, w) && n <= |trials| && TrialsOk(w, spec, i, trials)
    ensures
      var r := AdvanceTrials(step, trials, n, w);
      && |r.trials| == n
      && TrialsOk(r.world, spec, i, Mixed(step, trials, n, w))
      && WorldOk(ids, r.world) && OtherTasksKept(w, r.world, i)
      && forall j | 0 <= j < n :: !r.trials[j].status.Pending?
  {
    if n == 0 {
      assert Mixed(step, trials, 0, w) == trials;
    } else {
      TrialsKeep(ids, spec, i, step, trials, n - 1, w);
      var b := AdvanceTrials(step, trials, n - 1, w);
      var mixed := Mixed(step, trials, n - 1, w);
      assert mixed[n - 1] == trials[n - 1];
      var a := step(n - 1, trials[n - 1], b.world);
      assert KeepsAt(ids, spec, i, step, n - 1, trials[n - 1], b.world);
      assert Mixed(step, trials, n, w) == mixed[n - 1 := a.trial];
      OneReplaced(b.world, a.world, spec, i, mixed, n - 1, a.trial);
    }
  }

  lemma OneReplaced(w: World, w': World, spec: TaskSpec, i: nat, trials: seq<Trial>, j: nat, t: Trial)
    requires j < |trials| && TrialsOk(w, spec, i, trials)
    requires OthersKept(w, w', i, j) && TrialOk(w', spec, i, j, t)
    ensures TrialsOk(w', spec, i, trials[j := t])
  {
    forall j': nat | j' < |trials| && j' != j ensures TrialOk(w', spec, i, j', trials[j']) {
      OtherTrialOk(w, w', i, j, spec, i, j', trials[j']);
    }
  }

  /** In its turn, the m-th trial comes nearer to its end or nothing changes. */
  ghost predicate NearerAt(spec: TaskSpec, step: TrialStep, trials: seq<Trial>, m: nat, w: World)
    requires m < |trials|
  {
    var b := AdvanceTrials(step, trials, m, w);
    var a := step(m, trials[m], b.world);
    && (a.progressed ==> Ahead(spec, a.trial) < Ahead(spec, trials[m]))
    && (!a.progressed ==> a.trial == trials[m] && a.world == b.world)
  }

  lemma EachNearer(ids: Ids, spec: TaskSpec, i: nat, step: TrialStep, trials: seq<Trial>, w: World)
    requires Keeps(ids, spec, i, step) && Progresses(spec, i, step)
    requires WorldOk(ids, w) && TrialsOk(w, spec, i, trials)
    ensures forall m: nat | m < |trials| :: NearerAt(spec, step, trials, m, w)
  {
    forall m: nat | m < |trials| ensures NearerAt(spec, step, trials, m, w) {
      LastOk(ids, spec, i, step, trials, m + 1, w);
      assert ProgressesAt(spec, i, step, m, trials[m], AdvanceTrials(step, trials, m, w).world);
    }
  }

  /** Progress of a task's trials is exactly a drop of the steps ahead. */
  lemma {:induction false} TrialsProgress(spec: TaskSpec, step: TrialStep, trials: seq<Trial>, n: nat, w: World)
    requires n <= |trials| && forall m: nat | m < n :: NearerAt(spec, step, trials, m, w)
    ensures
      var r := AdvanceTrials(step, trials, n, w);
      && (r.progressed ==> TotalAhead(spec, r.trials) < TotalAhead(spec, trials[..n]))
      && (!r.progressed ==> r.trials == trials[..n] && r.world == w)
  {
    if n > 0 {
      TrialsProgress(spec, step, trials, n - 1, w);
      assert NearerAt(spec, step, trials, n - 1, w);
      var b := AdvanceTrials(step, trials, n - 1, w);
      assert trials[..n] == trials[..n - 1] + [trials[n - 1]];
      OneMoreTrial(spec, trials[..n - 1], trials[n - 1], w, b, step(n - 1, trials[n - 1], b.world));
    }
  }

  lemma OneMoreTrial(spec: TaskSpec, before: seq<Trial>, t: Trial, w: World, b: Trialed, a: Advanced)
    requires b.progressed ==> TotalAhead(spec, b.trials) < TotalAhead(spec, before)
    requires !b.progressed ==> b.trials == before && b.world == w
    requires a.progressed ==> Ahead(spec, a.trial) < Ahead(spec, t)
    requires !a.progressed ==> a.trial == t && a.world == b.world
    ensures b.progressed || a.progressed ==> TotalAhead(spec, b.trials + [a.trial]) < TotalAhead(spec, before + [t])
    ensures !(b.progressed || a.progressed) ==> b.trials + [a.trial] == before + [t] && a.world == w
  {
    AheadExtends(spec, before, t);
    AheadExtends(spec, b.trials, a.trial);
  }

  /** The n-th trial is still fine when its turn comes. */
  lemma LastOk(ids: Ids, spec: TaskSpec, i: nat, step: TrialStep, trials: seq<Trial>, n: nat, w: World)
    requires Keeps(ids, spec, i, step)
    requires WorldOk(ids, w) && 0 < n <= |trials| && TrialsOk(w, spec, i, trials)
    ensures TrialOk(AdvanceTrials(step, trials, n - 1, w).world, spec, i, n - 1, trials[n - 1])
  {
    TrialsKeep(ids, spec, i, step, trials, n - 1, w);
    assert Mixed(step, trials, n - 1, w)[n - 1] == trials[n - 1];
  }

  /** Going on adds to what the first trials gave. */
  lemma {:induction false} TrialsGoOn(step: TrialStep, trials: seq<Trial>, m: nat, n: nat, w: World)
    requires m <= n <= |trials|
    ensures
      var first, all := AdvanceTrials(step, trials, m, w), AdvanceTrials(step, trials, n, w);
      |first.trials| == m && first.trials <= all.trials && |all.trials| == n && (first.progressed ==> all.progressed)
  {
    if m < n {
      TrialsGoOn(step, trials, m, n - 1, w);
    } else if n > 0 {
      TrialsGoOn(step, trials, n - 1, n - 1, w);
    }
  }

  /** Terminal trials are never touched, and a trial whose own step progresses makes
      the task progress. */
  lemma TrialsTouched(ids: Ids, spec: TaskSpec, i: nat, step: TrialStep, trials: seq<Trial>, n: nat, w: World, j: nat)
    requires Keeps(ids, spec, i, step) && Progresses(spec, i, step)
    requires WorldOk(ids, w) && j < n <= |trials| && TrialsOk(w, spec, i, trials)
    ensures
      var r := AdvanceTrials(step, trials, n, w);
      && |r.trials| == n
      && (Terminal(trials[j].status) ==> r.trials[j] == trials[j])
      && ((forall w' {:trigger step(j, trials[j], w')} | TrialOk(w', spec, i, j, trials[j]) ::
             step(j, trials[j], w').progressed) ==> r.progressed)
  {
    TrialsGoOn(step, trials, j + 1, n, w);
    TrialsGoOn(step, trials, j, j + 1, w);
    LastOk(ids, spec, i, step, trials, j + 1, w);
    assert ProgressesAt(spec, i, step, j, trials[j], AdvanceTrials(step, trials, j, w).world);
  }

  lemma AheadExtends(spec: TaskSpec, trials: seq<Trial>, t: Trial)
    ensures TotalAhead(spec, trials + [t]) == TotalAhead(spec, trials) + Ahead(spec, t)
  {
    assert (trials + [t])[..|trials|] == trials;
  }

  /** Nothing lies ahead exactly when every trial is counted passed or failed. */
  lemma {:induction false} AheadCounts(w: World, spec: TaskSpec, i: nat, trials: seq<Trial>)
    requires TrialsOk(w, spec, i, trials)
    ensures TotalAhead(spec, trials) >= 0
    ensures CountTrials(trials, Completed) + CountTrials(trials, Failed) <= |trials|
    ensures TotalAhead(spec, trials) == 0
       <==> CountTrials(trials, Completed) + CountTrials(trials, Failed) == |trials|
    ensures TotalAhead(spec, trials) == 0 <==> forall j | 0 <= j < |trials| :: Terminal(trials[j].status)
    ensures CountTrials(trials, Completed) == |trials| <==> forall j | 0 <= j < |trials| :: trials[j].status.Completed?
  {
    if trials != [] {
      var init, last := trials[..|trials| - 1], trials[|trials| - 1];
      assert TrialsOk(w, spec, i, init) by {
        forall j: nat | j < |init|
          ensures TrialOk(w, spec, i, j, init[j])
        {
          assert init[j] == trials[j];
        }
      }
      AheadCounts(w, spec, i, init);
      assert forall j | 0 <= j < |init| :: init[j] == trials[j];
      assert TrialOk(w, spec, i, |trials| - 1, last);
    }
  }
}
