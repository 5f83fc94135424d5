/** Histories of an eval run in which the database refuses writes. */
module EvalFaults {
  import opened Folds
  import opened Text
  import opened EvalState
  import opened EvalCodec
  import opened EvalWorker
  import opened EvalHistory
  import opened EvalSends

  datatype Round = Round(tick: Tick, writes: Writes)

  function Ticks(rounds: seq<Round>): seq<Tick> {
    seq(|rounds|, k requires 0 <= k < |rounds| => rounds[k].tick)
  }

  /** How a history goes on, whatever its writes come to. */
  function GoOn(ids: Ids, start: History, rounds: seq<Round>): History {
    if rounds == [] then start
    else
      var h, last := GoOn(ids, start, rounds[..|rounds| - 1]), rounds[|rounds| - 1];
      var r := TickRow(ids, h.row, last.tick, last.writes, h.world);
      History(r.row, r.world, h.writes + if r.wrote then 1 else 0)
  }

  /** The worker's history with a run. */
  function Rounds(ids: Ids, row: Row, rounds: seq<Round>): History {
    GoOn(ids, History(row, World(0, map[]), 0), rounds)
  }

  /** The history of the first n ticks, had all their writes succeeded. */
  function Before(ids: Ids, row: Row, rounds: seq<Round>, n: nat): History
    requires n <= |rounds|
  {
    After(ids, row, Ticks(rounds[..n]))
  }

  /** The n-th tick, coming after no refused write, has its step's write refused. */
  predicate RefusedAt(ids: Ids, row: Row, rounds: seq<Round>, n: nat)
    requires n < |rounds|
  {
    var h := Before(ids, row, rounds, n);
    AdvanceRow(ids, h.row, rounds[n].tick, h.world).wrote && rounds[n].writes.error.Some?
  }

  ghost predicate NoneRefused(ids: Ids, row: Row, rounds: seq<Round>, n: nat)
    requires n <= |rounds|
  {
    forall k: nat | k < n :: !RefusedAt(ids, row, rounds, k)
  }

  lemma BeforeNext(ids: Ids, row: Row, rounds: seq<Round>, n: nat)
    requires n < |rounds|
    ensures
      var h := Before(ids, row, rounds, n);
      var r := AdvanceRow(ids, h.row, rounds[n].tick, h.world);
      Before(ids, row, rounds, n + 1) == History(r.row, r.world, h.writes + if r.wrote then 1 else 0)
  {
    var ticks := Ticks(rounds[..n + 1]);
    assert ticks[..|ticks| - 1] == Ticks(rounds[..n]);
  }

  /** As long as no write is refused, the history is the one without refusals. */
  lemma {:induction false} Undisturbed(ids: Ids, row: Row, rounds: seq<Round>, n: nat)
    requires NeverRepeats(ids) && RowOk(ids, World(0, map[]), row)
    requires n <= |rounds| && NoneRefused(ids, row, rounds, n)
    ensures Rounds(ids, row, rounds[..n]) == Before(ids, row, rounds, n)
    ensures Good(ids, Before(ids, row, rounds, n))
  {
    AlwaysGood(ids, row, Ticks(rounds[..n]));
    if n > 0 {
      Undisturbed(ids, row, rounds, n - 1);
      assert rounds[..n][..n - 1] == rounds[..n - 1];
      assert !RefusedAt(ids, row, rounds, n - 1);
      var h := Before(ids, row, rounds, n - 1);
      ReadTick(ids, h.row, rounds[n - 1].tick, rounds[n - 1].writes, h.world);
      BeforeNext(ids, row, rounds, n - 1);
    }
  }

  /** One tick of a run that reads, by what its write comes to. */
  lemma ReadTick(ids: Ids, row: Row, tick: Tick, writes: Writes, w: World)
    requires RowOk(ids, w, row)
    ensures
      var r := AdvanceRow(ids, row, tick, w);
      TickRow(ids, row, tick, writes, w) ==
      if !r.wrote || writes.error.None? then r
      else r.(row := Mark(row, writes.error.value, writes).row, wrote := writes.marks)
  {
  }

  predicate Finished(row: Row) { Parse(row.status, row.results).Some? && Terminal(row.status) }

  /** A finished run is left alone, whatever its results hold. */
  lemma {:induction false} Frozen(ids: Ids, row: Row, rounds: seq<Round>, n: nat)
    requires n <= |rounds| && Finished(Rounds(ids, row, rounds[..n]).row)
    ensures Rounds(ids, row, rounds) == Rounds(ids, row, rounds[..n])
    decreases |rounds|
  {
    if n == |rounds| {
      assert rounds[..n] == rounds;
    } else {
      var init := rounds[..|rounds| - 1];
      assert init[..n] == rounds[..n];
      Frozen(ids, row, init, n);
    }
  }

  predicate OpenTrial(tasks: seq<Task>, i: nat, j: nat) {
    i < |tasks| && j < |tasks[i].trials| && !Terminal(tasks[i].trials[j].status)
  }

  function Marked(row: Row, error: string): Row { Row(Failed, row.results, None, error) }

  /** Some trial of the row is not terminal. */
  ghost predicate HoldsOpen(row: Row) {
    && Parse(row.status, row.results).Some?
    && exists i: nat, j: nat :: OpenTrial(Stored(row).tasks, i, j)
  }

  /** What the tick of the first refused write leaves. */
  lemma RefusedTick(ids: Ids, row: Row, rounds: seq<Round>, n: nat)
    requires NeverRepeats(ids) && RowOk(ids, World(0, map[]), row)
    requires n < |rounds| && NoneRefused(ids, row, rounds, n) && RefusedAt(ids, row, rounds, n)
    requires rounds[n].writes.marks
    ensures
      var h, before := Rounds(ids, row, rounds[..n + 1]), Before(ids, row, rounds, n);
      && h.row == Marked(before.row, rounds[n].writes.error.value)
      && h.world == Before(ids, row, rounds, n + 1).world && h.writes == before.writes + 1
      && Good(ids, before) && !Terminal(before.row.status)
  {
    Undisturbed(ids, row, rounds, n);
    var before := Before(ids, row, rounds, n);
    ReadTick(ids, before.row, rounds[n].tick, rounds[n].writes, before.world);
    BeforeNext(ids, row, rounds, n);
    assert rounds[..n + 1][..n] == rounds[..n];
  }

  /** A run that is marked failed while it was open still holds an open trial, unless
      it has no tasks. */
  lemma MarkedOpen(ids: Ids, w: World, row: Row, error: string)
    requires RowOk(ids, w, row) && !Terminal(row.status)
    ensures Finished(Marked(row, error)) && (HoldsOpen(Marked(row, error)) <==> Stored(row).tasks != [])
  {
    BudgetPositive(ids, row, w);
    assert Stored(Marked(row, error)).tasks == Stored(row).tasks;
    if Stored(row).tasks != [] {
      var i, j := SomeOpen(w, Stored(row).tasks);
      assert OpenTrial(Stored(row).tasks, i, j);
    }
  }

  /** A run never gains or loses a task. */
  lemma {:induction false} TaskCountKept(ids: Ids, row: Row, ticks: seq<Tick>)
    requires NeverRepeats(ids) && RowOk(ids, World(0, map[]), row)
    ensures Good(ids, After(ids, row, ticks))
    ensures |Stored(After(ids, row, ticks).row).tasks| == |Stored(row).tasks|
  {
    AlwaysGood(ids, row, ticks);
    if ticks != [] {
      var init := ticks[..|ticks| - 1];
      TaskCountKept(ids, row, init);
      var h := After(ids, row, init);
      TickCountKept(ids, h.row, ticks[|ticks| - 1], h.world);
    }
  }

  lemma TickCountKept(ids: Ids, row: Row, tick: Tick, w: World)
    requires NeverRepeats(ids) && RowOk(ids, w, row)
    ensures
      var r := AdvanceRow(ids, row, tick, w);
      Parse(r.row.status, r.row.results).Some? && |Stored(r.row).tasks| == |Stored(row).tasks|
  {
    if !Terminal(row.status) {
      var s := Stored(row);
      OpenTick(ids, row, tick, w);
      PassGood(ids, s, tick, w);
      var ran := AdvanceTasks(TaskStepsOf(ids, tick), s.tasks, |s.tasks|, w);
      var s' := Pass(s, ran.tasks);
      StateStored(ran.world, s', FinalStatus(s'));
      StateStored(ran.world, s', Running);
    }
  }

  /** From the first refused write on, a run that could be marked failed is: with the
      refusal's error and the results it had before that tick, while its sessions keep
      what the tick did. Nothing changes after that, so unless the run has no tasks,
      a finished run then holds a trial that is not terminal. */
  lemma RefusedWriteEnds(ids: Ids, row: Row, rounds: seq<Round>, n: nat)
    requires NeverRepeats(ids) && RowOk(ids, World(0, map[]), row)
    requires n < |rounds| && NoneRefused(ids, row, rounds, n) && RefusedAt(ids, row, rounds, n)
    requires rounds[n].writes.marks
    ensures
      var h, before := Rounds(ids, row, rounds), Before(ids, row, rounds, n);
      && h.row == Marked(before.row, rounds[n].writes.error.value)
      && h.world == Before(ids, row, rounds, n + 1).world && h.writes == before.writes + 1
      && (HoldsOpen(h.row) <==> Stored(row).tasks != [])
  {
    RefusedTick(ids, row, rounds, n);
    var before := Before(ids, row, rounds, n);
    MarkedOpen(ids, before.world, before.row, rounds[n].writes.error.value);
    TaskCountKept(ids, row, Ticks(rounds[..n]));
    Frozen(ids, row, rounds, n + 1);
  }

  // ---- when not even the failure can be stored -----------------------------------------

  /** Neither the step nor the failure is stored. */
  predicate Lost(round: Round) { round.writes.error.Some? && !round.writes.marks }

  ghost predicate AllLost(rounds: seq<Round>) { forall k | 0 <= k < |rounds| :: Lost(rounds[k]) }

  /** What the ticks send of the row's j-th trial of its i-th task, each by itself. */
  function Sendings(task: Task, i: nat, j: nat): Round -> seq<string>
    requires j < |task.trials|
  {
    (round: Round) => SentBy(task.spec, task.trials[j], round.tick(i, j))
  }

  predicate SendsIn(task: Task, i: nat, j: nat, round: Round)
    requires j < |task.trials|
  {
    Sends(task.spec, task.trials[j], round.tick(i, j))
  }

  /** A tick of an open run: the sessions get what the pass over the tasks sends,
      whatever becomes of the writes, and a row whose writes are lost stays. */
  lemma LostTick(ids: Ids, row: Row, round: Round, w: World)
    requires Parse(row.status, row.results).Some? && !Terminal(row.status)
    ensures
      var r, tasks := TickRow(ids, row, round.tick, round.writes, w), Stored(row).tasks;
      && r.world == AdvanceTasks(TaskStepsOf(ids, round.tick), tasks, |tasks|, w).world
      && (Lost(round) ==> r.row == row && !r.wrote)
  {
  }

  /** In this world a tick on the row sends the session what `f` says. */
  ghost predicate TickSendsAt(ids: Ids, row: Row, sid: string, f: Round -> seq<string>, round: Round, w: World) {
    var r := TickRow(ids, row, round.tick, round.writes, w);
    Got(ids, w, r.world, sid, f(round)) && (Lost(round) ==> r.row == row && !r.wrote)
  }

  /** In any world a tick on the row sends a running trial's session what it sends. */
  lemma TickSends(ids: Ids, start: History, i: nat, j: nat, round: Round, w: World)
    requires NeverRepeats(ids) && Good(ids, start) && !Terminal(start.row.status)
    requires i < |Stored(start.row).tasks| && j < |Stored(start.row).tasks[i].trials|
    requires Stored(start.row).tasks[i].trials[j].status.Running?
    ensures
      var task := Stored(start.row).tasks[i];
      TickSendsAt(ids, start.row, task.trials[j].sessionId, Sendings(task, i, j), round, w)
  {
    LostTick(ids, start.row, round, w);
    RunningAlone(ids, start.world, Stored(start.row).tasks, i, j);
    PassAdds(ids, Stored(start.row).tasks, round.tick, w, i, j);
  }

  /** As long as all writes are lost the row stays as it was, and the session gets what
      each of the ticks sends of that very row. */
  lemma {:induction false} LostRounds(ids: Ids, start: History, sid: string, f: Round -> seq<string>,
        rounds: seq<Round>)
    requires forall round, w :: TickSendsAt(ids, start.row, sid, f, round, w)
    requires rounds == [] || AllLost(rounds[..|rounds| - 1])
    ensures
      var h := GoOn(ids, start, rounds);
      && (AllLost(rounds) ==> h.row == start.row && h.writes == start.writes)
      && Got(ids, start.world, h.world, sid, Gather(f, rounds))
  {
    if rounds == [] {
      GotNothing(ids, start.world, sid);
    } else {
      var init, last := rounds[..|rounds| - 1], rounds[|rounds| - 1];
      LostRounds(ids, start, sid, f, init);
      var h := GoOn(ids, start, init);
      assert TickSendsAt(ids, start.row, sid, f, last, h.world);
      assert rounds == init + [last];
      GatherExtends(f, init, last);
      GotMore(ids, start.world, h.world, GoOn(ids, start, rounds).world, sid, Gather(f, init), f(last));
    }
  }

  predicate OneSends(task: Task, i: nat, j: nat, rounds: seq<Round>)
    requires j < |task.trials|
  {
    exists k :: 0 <= k < |rounds| && SendsIn(task, i, j, rounds[k])
  }

  /** One tick and a later one both send. */
  predicate TwoSend(task: Task, i: nat, j: nat, rounds: seq<Round>)
    requires j < |task.trials|
  {
    exists m :: 0 <= m < |rounds| && SendsIn(task, i, j, rounds[m]) && OneSends(task, i, j, rounds[..m])
  }

  /** Ticks on the same row send the same message, as often as they send at all. */
  lemma {:induction false} SameMessage(task: Task, i: nat, j: nat, rounds: seq<Round>)
    requires j < |task.trials|
    ensures
      var sent := Gather(Sendings(task, i, j), rounds);
      && (sent != [] <==> OneSends(task, i, j, rounds)) && (|sent| >= 2 <==> TwoSend(task, i, j, rounds))
      && forall m | m in sent :: m == NextMessage(task.spec, task.trials[j])
  {
    if rounds != [] {
      var n := |rounds| - 1;
      var init, last := rounds[..n], rounds[n];
      SameMessage(task, i, j, init);
      assert rounds == init + [last];
      var f := Sendings(task, i, j);
      GatherExtends(f, init, last);
      SendsMore(task, i, j, init, last);
      forall m | m in Gather(f, rounds) ensures m == NextMessage(task.spec, task.trials[j]) {
        assert m in Gather(f, init) || m in f(last);
      }
    }
  }

  lemma SendsMore(task: Task, i: nat, j: nat, init: seq<Round>, last: Round)
    requires j < |task.trials|
    ensures OneSends(task, i, j, init + [last]) <==> OneSends(task, i, j, init) || SendsIn(task, i, j, last)
    ensures TwoSend(task, i, j, init + [last]) <==>
      TwoSend(task, i, j, init) || (SendsIn(task, i, j, last) && OneSends(task, i, j, init))
  {
    var rounds := init + [last];
    assert rounds[|init|] == last && rounds[..|init|] == init;
    assert forall k | 0 <= k < |init| :: rounds[k] == init[k] && rounds[..k] == init[..k];
  }

  /** When the writes of some ticks are lost, the next tick starts from the same row:
      the row is as it was, and a running trial's session got its next message as often
      as the ticks sent, so it repeats if and only if two of them did. */
  lemma SendsAgain(ids: Ids, start: History, rounds: seq<Round>, i: nat, j: nat)
    requires NeverRepeats(ids) && Good(ids, start) && !Terminal(start.row.status)
    requires i < |Stored(start.row).tasks| && j < |Stored(start.row).tasks[i].trials|
    requires Stored(start.row).tasks[i].trials[j].status.Running?
    requires rounds != [] && AllLost(rounds[..|rounds| - 1])
    ensures
      var h, task := GoOn(ids, start, rounds), Stored(start.row).tasks[i];
      var t, sent := task.trials[j], Gather(Sendings(task, i, j), rounds);
      && GoOn(ids, start, rounds[..|rounds| - 1]).row == start.row
      && t.sessionId in start.world.sessions && t.sessionId in h.world.sessions
      && h.world.sessions[t.sessionId].sent == start.world.sessions[t.sessionId].sent + sent
      && (forall m | m in sent :: m == NextMessage(task.spec, t))
      && (|sent| >= 2 <==> TwoSend(task, i, j, rounds))
  {
    var task := Stored(start.row).tasks[i];
    RunningAlone(ids, start.world, Stored(start.row).tasks, i, j);
    var f, sid := Sendings(task, i, j), task.trials[j].sessionId;
    forall round, w ensures TickSendsAt(ids, start.row, sid, f, round, w) {
      TickSends(ids, start, i, j, round, w);
    }
    LostRounds(ids, start, sid, f, rounds[..|rounds| - 1]);
    LostRounds(ids, start, sid, f, rounds);
    SameMessage(task, i, j, rounds);
  }
}
