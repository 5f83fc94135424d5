/** Durable self-wakeups of sessions: scheduling, cancelling, and the worker that fires
    them. */
module Wakeups {
  import opened Text

  const MAX_PENDING := 20
  const BATCH := 50

  datatype Kind = OneShot | Cron

  datatype Row = Row(id: string, session: string, prompt: string, kind: Kind, cron: string, fireAt: int)

  type Table = map<string, Row>

  /** Timestamps and cron expressions as they parse; a schedule gives its next time
      after a given one. */
  datatype Env = Env(parseTime: string -> Option<int>, parseCron: string -> Option<int -> int>)

  /** What a schedule gives that never comes again: the zero time, in seconds. */
  const NEVER := -62135596800

  function PendingOf(table: Table, session: string): set<string> {
    set id | id in table && table[id].session == session
  }

  ghost predicate Capped(table: Table) { forall session :: |PendingOf(table, session)| <= MAX_PENDING }

  // ---- scheduling ----------------------------------------------------------------

  datatype Args = Args(prompt: string, delaySeconds: Option<int>, at: Option<string>, cron: Option<string>)

  datatype Plan = Rejected(error: string) | Planned(kind: Kind, fireAt: int, cron: string)

  function Given(s: Option<string>): bool { s.Some? && s.value != "" }

  function Provided(args: Args): nat {
    (if args.delaySeconds.Some? then 1 else 0) + (if Given(args.at) then 1 else 0) + (if Given(args.cron) then 1 else 0)
  }

  /** ScheduleWakeup's checks, in its order; `archived` is None for an unknown session,
      `counted` the rows pending for it, or None when counting them fails. */
  method Check(env: Env, archived: Option<bool>, args: Args, counted: Option<nat>, now: int) returns (plan: Plan)
    requires env.parseTime("").None?
    ensures plan.Planned? <==> counted.Some? && Acceptable(env, archived, args, counted.value)
    ensures plan.Planned? ==> plan == Meant(env, args, now)
  {
    if archived.None? {
      return Rejected("not found");
    }
    if archived.value {
      return Rejected("session is terminated; cannot schedule wakeup");
    }
    if GoTrimSpace(args.prompt) == "" {
      return Rejected("prompt is required");
    }
    var provided := 0;
    if args.delaySeconds.Some? {
      provided := provided + 1;
    }
    if args.at.Some? && args.at.value != "" {
      provided := provided + 1;
    }
    if args.cron.Some? && args.cron.value != "" {
      provided := provided + 1;
    }
    if provided != 1 {
      return Rejected("must provide exactly one of delay_seconds | at | cron");
    }
    if counted.None? {
      return Rejected("count failed");
    }
    if counted.value >= MAX_PENDING {
      return Rejected("pending wakeup cap reached");
    }
    if args.delaySeconds.Some? {
      var sec := args.delaySeconds.value;
      if sec < 5 || sec > 7 * 24 * 3600 {
        return Rejected("delay_seconds must be between 5 and 604800");
      }
      return Planned(OneShot, now + sec, "");
    }
    if args.at.Some? {
      assert args.at.value == "" ==> env.parseTime(args.at.value).None?;
      var parsed := env.parseTime(args.at.value);
      if parsed.None? {
        return Rejected("invalid 'at' timestamp");
      }
      return Planned(OneShot, parsed.value, "");
    }
    var cron := args.cron.value;
    if |cron| < 9 || |cron| > 120 {
      return Rejected("invalid cron expression");
    }
    var schedule := env.parseCron(cron);
    if schedule.None? {
      return Rejected("invalid cron");
    }
    return Planned(Cron, schedule.value(now), cron);
  }

  /** Exactly what is accepted. An empty `at` beside a cron counts as not given and is
      nevertheless parsed, so that cron is refused. */
  predicate Acceptable(env: Env, archived: Option<bool>, args: Args, pending: nat) {
    && archived == Some(false) && GoTrimSpace(args.prompt) != "" && pending < MAX_PENDING
    && match (args.delaySeconds, args.at, args.cron) {
         case (Some(sec), _, _) => !Given(args.at) && !Given(args.cron) && 5 <= sec <= 604800
         case (None, Some(at), _) => at != "" && !Given(args.cron) && env.parseTime(at).Some?
         case (None, None, Some(cron)) => 9 <= |cron| <= 120 && env.parseCron(cron).Some?
         case (None, None, None) => false
       }
  }

  /** What an accepted request asks for. */
  function Meant(env: Env, args: Args, now: int): Plan {
    if args.delaySeconds.Some? then Planned(OneShot, now + args.delaySeconds.value, "")
    else if Given(args.at) && env.parseTime(args.at.value).Some? then
      Planned(OneShot, env.parseTime(args.at.value).value, "")
    else if Given(args.cron) && env.parseCron(args.cron.value).Some? then
      Planned(Cron, env.parseCron(args.cron.value).value(now), args.cron.value)
    else Rejected("")
  }

  /** A cron that is accepted on its own is refused beside an empty `at`. */
  lemma EmptyAtRefusesCron(env: Env, prompt: string, cron: string)
    requires GoTrimSpace(prompt) != "" && 9 <= |cron| <= 120 && env.parseCron(cron).Some?
    ensures Acceptable(env, Some(false), Args(prompt, None, None, Some(cron)), 0)
    ensures Provided(Args(prompt, None, Some(""), Some(cron))) == 1
    ensures !Acceptable(env, Some(false), Args(prompt, None, Some(""), Some(cron)), 0)
  {
  }

  // ---- what is due ------------------------------------------------------------------

  function Due(table: Table, now: int): set<string> { set id | id in table && table[id].fireAt <= now }

  ghost predicate Keyed(table: Table) { forall id | id in table :: table[id].id == id }

  /** Among the first n listed rows. */
  ghost predicate ListedIn(due: seq<Row>, n: nat, id: string)
    requires n <= |due|
  {
    exists i :: 0 <= i < n && due[i].id == id
  }

  ghost predicate Listed(due: seq<Row>, id: string) { ListedIn(due, |due|, id) }

  /** ListDue: at most `limit` due rows, each once, the earliest first; a row that is
      due and not listed is not earlier than any that is. */
  ghost predicate Lists(table: Table, now: int, limit: nat, due: seq<Row>) {
    && |due| <= limit
    && (forall i | 0 <= i < |due| :: due[i].id in table && table[due[i].id] == due[i] && due[i].fireAt <= now)
    && (forall i, j | 0 <= i < j < |due| :: due[i].id != due[j].id && due[i].fireAt <= due[j].fireAt)
    && (forall id | id in Due(table, now) && !Listed(due, id) ::
          |due| == limit && forall i | 0 <= i < |due| :: due[i].fireAt <= table[id].fireAt)
  }

  method ListDue(table: Table, now: int, limit: nat) returns (due: seq<Row>)
    requires Keyed(table)
    ensures Lists(table, now, limit, due)
  {
    due := [];
    var left := Due(table, now);
    while left != {} && |due| < limit
      invariant left <= Due(table, now) && |due| <= limit
      invariant forall i | 0 <= i < |due| :: due[i].id in table && table[due[i].id] == due[i] && due[i].fireAt <= now
      invariant forall i, j | 0 <= i < j < |due| :: due[i].id != due[j].id && due[i].fireAt <= due[j].fireAt
      invariant forall id | id in Due(table, now) :: id in left <==> !Listed(due, id)
      invariant forall i, id | 0 <= i < |due| && id in left :: due[i].fireAt <= table[id].fireAt
      decreases |left|
    {
      var id := Earliest(table, left);
      ListMore(due, table[id]);
      due := due + [table[id]];
      left := left - {id};
    }
  }

  lemma ListMore(due: seq<Row>, row: Row)
    ensures forall id :: Listed(due + [row], id) <==> Listed(due, id) || id == row.id
  {
    forall id ensures Listed(due + [row], id) <==> Listed(due, id) || id == row.id {
      var more := due + [row];
      if Listed(due, id) {
        var i :| 0 <= i < |due| && due[i].id == id;
        assert more[i].id == id;
      }
      assert more[|due|] == row;
    }
  }

  method Earliest(table: Table, ids: set<string>) returns (id: string)
    requires ids != {} && forall id | id in ids :: id in table
    ensures id in ids && forall other | other in ids :: table[id].fireAt <= table[other].fireAt
  {
    id :| id in ids;
    var left := ids - {id};
    while left != {}
      invariant left <= ids && id in ids
      invariant forall other | other in ids && other !in left :: table[id].fireAt <= table[other].fireAt
      decreases |left|
    {
      var other :| other in left;
      if table[other].fireAt < table[id].fireAt {
        id := other;
      }
      left := left - {other};
    }
  }

  // ---- one tick -----------------------------------------------------------------------

  /** What becomes of a row that was fired at a time; None when it leaves the table. */
  function After(env: Env, row: Row, t: int): Option<Row> {
    if row.kind.OneShot? then None
    else if row.cron == "" then Some(row)
    else
      var schedule := env.parseCron(row.cron);
      if schedule.None? then None else Some(row.(fireAt := schedule.value(t)))
  }

  /** The table after the first n listed rows were handled. */
  ghost predicate Handled(env: Env, before: Table, now: Table, due: seq<Row>, clock: nat -> int, n: nat)
    requires n <= |due|
  {
    OnlyTimes(before, now) && OthersWait(before, now, due, n) && EachDone(env, now, due, clock, n)
  }

  /** Rows are left as they were but for their times. */
  ghost predicate OnlyTimes(before: Table, now: Table) {
    forall id | id in now :: id in before && now[id] == before[id].(fireAt := now[id].fireAt)
  }

  ghost predicate OthersWait(before: Table, now: Table, due: seq<Row>, n: nat)
    requires n <= |due|
  {
    forall id | id in before && !ListedIn(due, n, id) :: id in now && now[id] == before[id]
  }

  ghost predicate EachDone(env: Env, now: Table, due: seq<Row>, clock: nat -> int, n: nat)
    requires n <= |due|
  {
    forall i: nat | i < n :: Lookup(now, due[i].id) == After(env, due[i], clock(i))
  }

  ghost predicate OnlyMoved(was: Table, now: Table, moved: string) {
    forall id | id != moved :: Lookup(now, id) == Lookup(was, id)
  }

  function Lookup(table: Table, id: string): Option<Row> { if id in table then Some(table[id]) else None }

  ghost predicate Ticked(env: Env, before: Table, after: Table, now: int, due: seq<Row>, clock: nat -> int) {
    Lists(before, now, BATCH, due) && Handled(env, before, after, due, clock, |due|)
  }

  datatype Delivery = Delivery(session: string, prompt: string, kind: Kind)

  /** What firing a row sends: nothing to a session that is gone or archived. */
  function Sent(sessions: map<string, bool>, row: Row): seq<Delivery> {
    if row.session in sessions && !sessions[row.session] then [Delivery(row.session, row.prompt, row.kind)] else []
  }

  function SentAll(sessions: map<string, bool>, rows: seq<Row>): seq<Delivery> {
    if rows == [] then [] else SentAll(sessions, rows[..|rows| - 1]) + Sent(sessions, rows[|rows| - 1])
  }

  /** The answer to a request. Both last ones are errors to the caller, but the last
      one leaves the row behind. */
  datatype Answer = Scheduled(plan: Plan) | Refused(error: string) | Unannounced(plan: Plan)

  /** The span event that announces a scheduled row. */
  datatype Span = Span(session: string, scheduleId: string, fireAt: int, kind: Kind, cron: string)

  datatype TickResult = TickResult(fired: nat, total: nat, ok: bool)

  function RowOf(id: string, session: string, args: Args, plan: Plan): Row
    requires plan.Planned?
  {
    Row(id, session, GoTrimSpace(args.prompt), plan.kind, plan.cron, plan.fireAt)
  }

  function SpanOf(row: Row): Span { Span(row.session, row.id, row.fireAt, row.kind, row.cron) }

  class Wakeups {
    const env: Env
    /** Whether the n-th call of the worker into a repository or session fails. */
    const faults: nat -> bool
    var calls: nat
    var table: Table
    /** Known sessions, true when archived. */
    var sessions: map<string, bool>
    var delivered: seq<Delivery>
    var announced: seq<Span>
    /** Ids ever scheduled, ever fired, ever cancelled. */
    ghost var scheduled: set<string>
    ghost var fired: set<string>
    ghost var cancelled: set<string>

    /** Whatever was scheduled and has left the table was fired or cancelled; no session
        has more than MAX_PENDING rows; every cron row has an expression that parses. */
    ghost predicate Valid()
      reads this
    {
      && Keyed(table) && env.parseTime("").None?
      && (forall id | id in scheduled :: id in table || id in fired || id in cancelled)
      && (forall id | id in table :: id in scheduled)
      && Capped(table)
      && (forall id | id in table && table[id].kind.Cron? ::
            table[id].cron != "" && env.parseCron(table[id].cron).Some?)
    }

    constructor (env: Env, faults: nat -> bool, sessions: map<string, bool>)
      requires env.parseTime("").None?
      ensures Valid() && this.env == env && this.sessions == sessions
      ensures table == map[] && delivered == [] && announced == []
    {
      this.env, this.faults, this.sessions := env, faults, sessions;
      calls, table, delivered, announced := 0, map[], [], [];
      scheduled, fired, cancelled := {}, {}, {};
      new;
      forall session ensures |PendingOf(table, session)| <= MAX_PENDING { assert PendingOf(table, session) == {}; }
    }

    method Call() returns (ok: bool)
      modifies `calls
      ensures ok == !faults(old(calls)) && calls == old(calls) + 1
    {
      ok := !faults(calls);
      calls := calls + 1;
    }

    /** ScheduleWakeup with a fresh id: looks the session up, checks, stores the row and
        announces it. A row that could not be announced stays, though the caller sees an
        error. */
    method ScheduleWakeup(session: string, args: Args, id: string, now: int) returns (answer: Answer)
      requires Valid() && id !in scheduled
      modifies `table, `scheduled, `announced, `calls
      ensures Valid() && old(table.Keys) <= table.Keys
      ensures !answer.Refused? ==> answer.plan.Planned? && answer.plan == Meant(env, args, now)
      ensures !answer.Refused? ==> Admitted(session, args, old(table))
      ensures Admitted(session, args, old(table)) && !answer.Scheduled? ==> Faulted(old(calls), calls)
      ensures table == if answer.Refused? then old(table) else old(table)[id := RowOf(id, session, args, answer.plan)]
      ensures announced == old(announced) +
        if answer.Scheduled? then [SpanOf(RowOf(id, session, args, answer.plan))] else []
    {
      var found := Call();
      if !found {
        return Refused("lookup failed");
      }
      var counted := Call();
      var pending := if counted then Some(|PendingOf(table, session)|) else None;
      var plan := Check(env, Archived(session), args, pending, now);
      if plan.Rejected? {
        return Refused(plan.error);
      }
      answer := Place(RowOf(id, session, args, plan), plan);
    }

    method Create(row: Row)
      requires Valid() && row.id !in scheduled && |PendingOf(table, row.session)| < MAX_PENDING
      requires row.kind.Cron? ==> row.cron != "" && env.parseCron(row.cron).Some?
      modifies `table, `scheduled
      ensures Valid() && table == old(table)[row.id := row]
    {
      StillCapped(table, row);
      table, scheduled := table[row.id := row], scheduled + {row.id};
    }

    /** Stores the row of an accepted request and announces it. */
    method Place(row: Row, plan: Plan) returns (answer: Answer)
      requires Valid() && row.id !in scheduled && |PendingOf(table, row.session)| < MAX_PENDING
      requires row.kind.Cron? ==> row.cron != "" && env.parseCron(row.cron).Some?
      modifies `table, `scheduled, `announced, `calls
      ensures Valid() && old(table.Keys) <= table.Keys
      ensures !answer.Refused? ==> answer.plan == plan
      ensures !answer.Scheduled? ==> Faulted(old(calls), calls)
      ensures table == if answer.Refused? then old(table) else old(table)[row.id := row]
      ensures announced == old(announced) + if answer.Scheduled? then [SpanOf(row)] else []
    {
      var stored := Call();
      if !stored {
        return Refused("insert failed");
      }
      Create(row);
      var appended := Call();
      if !appended {
        return Unannounced(plan);
      }
      announced := announced + [SpanOf(row)];
      return Scheduled(plan);
    }

    function Archived(session: string): Option<bool>
      reads `sessions
    {
      if session in sessions then Some(sessions[session]) else None
    }

    predicate Admitted(session: string, args: Args, table: Table)
      reads `sessions
    {
      Acceptable(env, Archived(session), args, |PendingOf(table, session)|)
    }

    /** One of these calls failed. */
    predicate Faulted(first: nat, end: nat) { exists k: nat :: first <= k < end && faults(k) }

    /** CancelWakeup. */
    method CancelWakeup(session: string, id: string) returns (ok: bool)
      requires Valid()
      modifies `table, `cancelled
      ensures Valid() && ok == (id != "" && id in old(table) && old(table)[id].session == session)
      ensures table == if ok then old(table) - {id} else old(table)
    {
      if id == "" || id !in table || table[id].session != session {
        return false;
      }
      FewerPending(table, table - {id});
      table, cancelled := table - {id}, cancelled + {id};
      return true;
    }

    /** One listed row: fired, then removed or rescheduled. */
    method HandleRow(row: Row, t: int) returns (ok: bool, counted: bool)
      requires row.id in table && table[row.id] == row && Keyed(table)
      modifies `table, `delivered, `fired, `calls
      ensures Keyed(table) && OnlyMoved(old(table), table, row.id)
      ensures ok ==> Lookup(table, row.id) == After(env, row, t) && delivered == old(delivered) + Sent(sessions, row)
      ensures !ok ==> table == old(table) && old(delivered) <= delivered
      ensures ok ==> row.id in fired
      ensures old(fired) <= fired
      ensures counted ==> ok
      ensures ok && Countable(env, row) ==> counted
    {
      var done := Fire(row);
      if !done {
        return false, false;
      }
      if row.kind.OneShot? {
        done := Call();
        if !done {
          return false, false;
        }
        table := table - {row.id};
      } else if row.cron != "" {
        var schedule := env.parseCron(row.cron);
        done := Call();
        if !done {
          return false, false;
        }
        if schedule.None? {
          table := table - {row.id};
          return true, false;
        }
        table := table[row.id := row.(fireAt := schedule.value(t))];
      }
      return true, true;
    }

    /** The loop over the listed rows. */
    method HandleAll(rows: seq<Row>, clock: nat -> int) returns (ok: bool, count: nat)
      requires Keyed(table) && Distinct(table, rows)
      requires forall i | 0 <= i < |rows| :: Countable(env, rows[i])
      modifies `table, `delivered, `fired, `calls
      ensures count <= |rows| && Handled(env, old(table), table, rows, clock, count) && Keyed(table)
      ensures ok ==> count == |rows| && delivered == old(delivered) + SentAll(sessions, rows)
      ensures old(fired) <= fired && forall j | 0 <= j < count :: rows[j].id in fired
    {
      count, ok := 0, true;
      ghost var before, sent, had := table, delivered, fired;
      for i := 0 to |rows|
        invariant count == i && Handled(env, before, table, rows, clock, i) && Keyed(table)
        invariant delivered == sent + SentAll(sessions, rows[..i])
        invariant had <= fired && forall j | 0 <= j < i :: rows[j].id in fired
      {
        NotYet(env, before, table, rows, clock, i);
        ghost var was := table;
        var done, counted := HandleRow(rows[i], clock(i));
        if !done {
          return false, count;
        }
        OneMoreHandled(env, before, was, table, rows, clock, i);
        SentMore(sent, sessions, rows, i);
        if counted {
          count := count + 1;
        }
      }
      assert rows[..|rows|] == rows;
    }

    /** Tick; `clock(i)` is the time when the i-th listed row was handled. */
    method Tick(now: int, clock: nat -> int) returns (result: TickResult, ghost due: seq<Row>)
      requires Valid()
      modifies `table, `delivered, `fired, `calls
      ensures Valid() && result.total == |due|
      ensures Lists(old(table), now, BATCH, due) || (!result.ok && due == [] && Faulted(old(calls), calls))
      ensures result.ok ==>
        && Ticked(env, old(table), table, now, due, clock) && result.fired == |due|
        && delivered == old(delivered) + SentAll(sessions, due)
      ensures forall id | id in old(table) && !Listed(due, id) :: id in table && table[id] == old(table)[id]
      ensures forall id | id in old(table) && id !in table :: id in fired
    {
      var listed := Call();
      if !listed {
        return TickResult(0, 0, false), [];
      }
      var rows := ListDue(table, now, BATCH);
      due := rows;
      ghost var before := table;
      var ok, count := HandleAll(rows, clock);
      FewerPending(before, table);
      Survey(env, before, table, rows, clock, count);
      result := TickResult(count, |rows|, ok);
    }

    /** FireScheduledWakeup. */
    method Fire(row: Row) returns (ok: bool)
      modifies `delivered, `fired, `calls
      ensures delivered == old(delivered) + (if ok then Sent(sessions, row) else [])
      ensures fired == old(fired) + if ok then {row.id} else {}
    {
      ok := Call();
      if !ok {
        return;
      }
      if row.session in sessions && !sessions[row.session] {
        delivered := delivered + [Delivery(row.session, row.prompt, row.kind)];
      }
      fired := fired + {row.id};
    }
  }

  /** The next listed row is still as it was listed. */
  lemma NotYet(env: Env, before: Table, now: Table, due: seq<Row>, clock: nat -> int, n: nat)
    requires n < |due| && Handled(env, before, now, due, clock, n) && Distinct(before, due)
    ensures due[n].id in now && now[due[n].id] == due[n]
  {
    assert !ListedIn(due, n, due[n].id);
  }

  ghost predicate Distinct(before: Table, due: seq<Row>) {
    && (forall i | 0 <= i < |due| :: due[i].id in before && before[due[i].id] == due[i])
    && forall i, j | 0 <= i < j < |due| :: due[i].id != due[j].id
  }

  lemma OneMoreHandled(env: Env, before: Table, was: Table, now: Table, due: seq<Row>, clock: nat -> int, n: nat)
    requires n < |due| && Handled(env, before, was, due, clock, n) && Distinct(before, due)
    requires OnlyMoved(was, now, due[n].id) && Lookup(now, due[n].id) == After(env, due[n], clock(n))
    ensures Handled(env, before, now, due, clock, n + 1)
  {
    TimesOnly(env, before, was, now, due, clock, n);
    OthersWaitOn(before, was, now, due, n);
    OneMoreDone(env, before, was, now, due, clock, n);
  }

  lemma TimesOnly(env: Env, before: Table, was: Table, now: Table, due: seq<Row>, clock: nat -> int, n: nat)
    requires n < |due| && OnlyTimes(before, was) && Distinct(before, due) && OnlyMoved(was, now, due[n].id)
    requires Lookup(now, due[n].id) == After(env, due[n], clock(n))
    ensures OnlyTimes(before, now)
  {
    forall id | id in now ensures id in before && now[id] == before[id].(fireAt := now[id].fireAt) {
      if id != due[n].id {
        assert Lookup(now, id) == Lookup(was, id);
      }
    }
  }

  lemma OthersWaitOn(before: Table, was: Table, now: Table, due: seq<Row>, n: nat)
    requires n < |due| && OthersWait(before, was, due, n) && OnlyMoved(was, now, due[n].id)
    ensures OthersWait(before, now, due, n + 1)
  {
    forall id | id in before && !ListedIn(due, n + 1, id) ensures id in now && now[id] == before[id] {
      assert due[n].id != id && !ListedIn(due, n, id);
      assert Lookup(now, id) == Lookup(was, id);
    }
  }

  lemma OneMoreDone(env: Env, before: Table, was: Table, now: Table, due: seq<Row>, clock: nat -> int, n: nat)
    requires n < |due| && EachDone(env, was, due, clock, n) && Distinct(before, due)
    requires OnlyMoved(was, now, due[n].id) && Lookup(now, due[n].id) == After(env, due[n], clock(n))
    ensures EachDone(env, now, due, clock, n + 1)
  {
    forall i: nat | i < n + 1 ensures Lookup(now, due[i].id) == After(env, due[i], clock(i)) {
      if i < n {
        assert due[i].id != due[n].id;
        assert Lookup(now, due[i].id) == Lookup(was, due[i].id);
      }
    }
  }

  lemma SentMore(sent: seq<Delivery>, sessions: map<string, bool>, rows: seq<Row>, n: nat)
    requires n < |rows|
    ensures (sent + SentAll(sessions, rows[..n])) + Sent(sessions, rows[n]) == sent + SentAll(sessions, rows[..n + 1])
  {
    assert rows[..n + 1][..n] == rows[..n];
    assert sent + SentAll(sessions, rows[..n]) + Sent(sessions, rows[n])
        == sent + (SentAll(sessions, rows[..n]) + Sent(sessions, rows[n]));
  }

  /** Rows that are not listed are as before; what left was among the first n. */
  lemma Survey(env: Env, before: Table, now: Table, due: seq<Row>, clock: nat -> int, n: nat)
    requires n <= |due| && Handled(env, before, now, due, clock, n)
    ensures forall id | id in before && !Listed(due, id) :: id in now && now[id] == before[id]
    ensures forall id | id in before && id !in now :: ListedIn(due, n, id)
  {
  }

  /** Fired rows that count: all but cron rows whose expression does not parse. */
  predicate Countable(env: Env, row: Row) {
    row.kind.OneShot? || row.cron == "" || env.parseCron(row.cron).Some?
  }

  lemma StillCapped(table: Table, row: Row)
    requires Capped(table) && row.id !in table && |PendingOf(table, row.session)| < MAX_PENDING
    ensures Capped(table[row.id := row])
  {
    var more := table[row.id := row];
    forall session ensures |PendingOf(more, session)| <= MAX_PENDING {
      OneMorePending(table, more, row, session);
    }
  }

  lemma OneMorePending(table: Table, more: Table, row: Row, session: string)
    requires row.id !in table && more == table[row.id := row]
    ensures |PendingOf(more, session)|
         <= |PendingOf(table, session)| + if session == row.session then 1 else 0
  {
    var before, now := PendingOf(table, session), PendingOf(more, session);
    if session == row.session {
      Smaller(now, before + {row.id});
    } else {
      Smaller(now, before);
    }
  }

  lemma FewerPending(table: Table, table': Table)
    requires Capped(table)
    requires forall id | id in table' :: id in table && table'[id].session == table[id].session
    ensures Capped(table')
  {
    forall session ensures |PendingOf(table', session)| <= MAX_PENDING {
      Smaller(PendingOf(table', session), PendingOf(table, session));
    }
  }

  lemma {:induction false} Smaller<T>(a: set<T>, b: set<T>)
    requires a <= b
    ensures |a| <= |b|
  {
    if a != {} {
      var x :| x in a;
      Smaller(a - {x}, b - {x});
    }
  }

  // ---- what a tick without errors leaves due -------------------------------------------------

  /** A row that was handled at time t is due again by `start`. */
  predicate StaysDue(env: Env, row: Row, t: int, start: int) {
    row.kind.Cron? &&
    if row.cron == "" then row.fireAt <= start
    else env.parseCron(row.cron).Some? && env.parseCron(row.cron).value(t) <= start
  }

  /** A handled row is still due exactly when it is a cron row without an expression, or
      its schedule's next time is not after the tick. */
  lemma StillDue(env: Env, before: Table, after: Table, now: int, due: seq<Row>, clock: nat -> int, i: nat)
    requires Ticked(env, before, after, now, due, clock) && i < |due|
    ensures due[i].id in Due(after, now) <==>
      due[i].kind.Cron? &&
      (due[i].cron == "" || match env.parseCron(due[i].cron)
                            case None => false
                            case Some(next) => next(clock(i)) <= now)
  {
    StillDueBy(env, before, after, now, due, clock, i, now);
  }

  lemma StillDueBy(env: Env, before: Table, after: Table, now: int, due: seq<Row>, clock: nat -> int, i: nat,
        start: int)
    requires Ticked(env, before, after, now, due, clock) && i < |due|
    ensures due[i].id in Due(after, start) <==> StaysDue(env, due[i], clock(i), start)
  {
    assert Lookup(after, due[i].id) == After(env, due[i], clock(i));
  }

  /** An accepted cron whose schedule never comes: its row is due at once, and again
      after every tick. */
  lemma NeverComes(env: Env, prompt: string, cron: string, id: string, session: string, now: int, t: int)
    requires GoTrimSpace(prompt) != "" && 9 <= |cron| <= 120 && env.parseCron(cron).Some?
    requires env.parseCron(cron).value(now) == NEVER && env.parseCron(cron).value(t) == NEVER
    requires NEVER <= now
    ensures
      var args := Args(prompt, None, None, Some(cron));
      && Acceptable(env, Some(false), args, 0) && Meant(env, args, now) == Planned(Cron, NEVER, cron)
      && StaysDue(env, RowOf(id, session, args, Meant(env, args, now)), t, now)
  {
  }

  function IdsOf(due: seq<Row>): set<string> { set i | 0 <= i < |due| :: due[i].id }

  lemma {:induction false} IdsCount(due: seq<Row>)
    requires forall i, j | 0 <= i < j < |due| :: due[i].id != due[j].id
    ensures |IdsOf(due)| == |due|
  {
    if due != [] {
      var init, last := due[..|due| - 1], due[|due| - 1];
      IdsCount(init);
      assert IdsOf(due) == IdsOf(init) + {last.id} by {
        forall id | id in IdsOf(due) ensures id in IdsOf(init) + {last.id} {
          var i :| 0 <= i < |due| && due[i].id == id;
          assert i < |init| ==> init[i].id == id;
        }
        forall id | id in IdsOf(init) ensures id in IdsOf(due) {
          var i :| 0 <= i < |init| && init[i].id == id;
          assert due[i].id == id;
        }
      }
      assert last.id !in IdsOf(init);
    }
  }

  /** The listed rows that are due again by `start`. */
  function Stuck(env: Env, due: seq<Row>, clock: nat -> int, start: int): set<string> {
    set i: nat | i < |due| && StaysDue(env, due[i], clock(i), start) :: due[i].id
  }

  /** What was due at an earlier time loses exactly the listed rows that do not stay due. */
  lemma BacklogIs(env: Env, before: Table, after: Table, start: int, now: int, due: seq<Row>, clock: nat -> int)
    requires Ticked(env, before, after, now, due, clock)
    ensures Due(after, start) == (Due(before, start) - IdsOf(due)) + Stuck(env, due, clock, start)
  {
    forall id ensures id in Due(after, start) <==>
      (id in Due(before, start) && id !in IdsOf(due)) || id in Stuck(env, due, clock, start)
    {
      if id in IdsOf(due) {
        var i: nat :| i < |due| && due[i].id == id;
        StillDueBy(env, before, after, now, due, clock, i, start);
      } else {
        assert !Listed(due, id);
      }
    }
  }

  /** A batch covers the backlog, or is full and all of it. */
  lemma BatchOfBacklog(before: Table, start: int, now: int, due: seq<Row>)
    requires Lists(before, now, BATCH, due) && start <= now
    ensures Due(before, start) <= IdsOf(due) || (IdsOf(due) <= Due(before, start) && |due| == BATCH)
  {
    if !(Due(before, start) <= IdsOf(due)) {
      var id :| id in Due(before, start) && id !in IdsOf(due);
      assert !Listed(due, id);
    }
  }

  lemma WhatIsLeft<T>(backlog: set<T>, batch: set<T>, limit: nat)
    requires |batch| <= limit && (backlog <= batch || (batch <= backlog && |batch| == limit))
    ensures |backlog - batch| == if |backlog| <= limit then 0 else |backlog| - limit
  {
    if backlog <= batch {
      Smaller(backlog, batch);
      assert backlog - batch == {};
    } else {
      assert backlog == batch + (backlog - batch);
    }
  }

  /** One tick takes 50 off the backlog of an earlier time, or all of it, but for the
      listed rows that stay due. */
  lemma BacklogShrinks(env: Env, before: Table, after: Table, start: int, now: int, due: seq<Row>, clock: nat -> int)
    requires Ticked(env, before, after, now, due, clock) && start <= now
    ensures |Due(after, start)|
         == (if |Due(before, start)| <= 50 then 0 else |Due(before, start)| - 50)
            + |Stuck(env, due, clock, start)|
  {
    BacklogIs(env, before, after, start, now, due, clock);
    IdsCount(due);
    BatchOfBacklog(before, start, now, due);
    WhatIsLeft(Due(before, start), IdsOf(due), BATCH);
    var left, stuck := Due(before, start) - IdsOf(due), Stuck(env, due, clock, start);
    assert left !! stuck;
    assert |left + stuck| == |left| + |stuck|;
  }

  /** A cron row has an expression, and its schedule looks strictly ahead. */
  ghost predicate LooksAhead(env: Env, row: Row) {
    row.kind.Cron? ==>
      row.cron != "" && forall t: int :: env.parseCron(row.cron).Some? ==> env.parseCron(row.cron).value(t) > t
  }

  ghost predicate Proper(env: Env, table: Table) { forall id | id in table :: LooksAhead(env, table[id]) }

  lemma StaysProper(env: Env, before: Table, after: Table, now: int, due: seq<Row>, clock: nat -> int)
    requires Ticked(env, before, after, now, due, clock) && Proper(env, before)
    ensures Proper(env, after)
  {
    forall id | id in after ensures LooksAhead(env, after[id]) {
      assert LooksAhead(env, before[id]);
    }
  }

  lemma NoneStuck(env: Env, before: Table, now: int, due: seq<Row>, clock: nat -> int, start: int)
    requires Lists(before, now, BATCH, due) && Proper(env, before) && start <= now
    requires forall i: nat :: clock(i) >= now
    ensures Stuck(env, due, clock, start) == {}
  {
    forall i: nat | i < |due| ensures !StaysDue(env, due[i], clock(i), start) {
      assert LooksAhead(env, before[due[i].id]);
    }
  }

  /** One worker pass: the tables around it, when it began, what it listed, and when it
      handled each row. */
  datatype Pass = Pass(before: Table, after: Table, now: int, due: seq<Row>, clock: nat -> int)

  ghost predicate PassOk(env: Env, p: Pass, start: int) {
    && start <= p.now && (forall i: nat :: p.clock(i) >= p.now)
    && Ticked(env, p.before, p.after, p.now, p.due, p.clock)
  }

  /** What scheduling and cancelling may do between two passes as long as no row that is
      due by `start` is added. */
  ghost predicate Edited(env: Env, table: Table, table': Table, start: int) {
    && (forall id | id in table' :: Lookup(table, id) == Some(table'[id]) || table'[id].fireAt > start)
    && Proper(env, table')
  }

  lemma EditsAddNothing(env: Env, table: Table, table': Table, start: int)
    requires Edited(env, table, table', start)
    ensures |Due(table', start)| <= |Due(table, start)|
  {
    Smaller(Due(table', start), Due(table, start));
  }

  /** A request is such an edit exactly when it is planned for after `start` and looks
      ahead from then on; cancelling always is. */
  lemma RequestsEdit(env: Env, table: Table, row: Row, start: int)
    requires Proper(env, table) && row.id !in table
    ensures Edited(env, table, table[row.id := row], start) <==> row.fireAt > start && LooksAhead(env, row)
    ensures Edited(env, table, table - {row.id}, start)
  {
    var more := table[row.id := row];
    assert more[row.id] == row;
    forall id | id in table ensures LooksAhead(env, table[id]) && (id in more ==> more[id] == table[id]) {
    }
  }

  /** Batches of 50 drain any backlog, whatever else comes due, is scheduled for later or
      is cancelled meanwhile, when all cron rows look ahead. */
  lemma {:induction false} BatchesDrain(env: Env, passes: seq<Pass>, start: int, n: nat)
    requires 0 < n <= |passes| && Proper(env, passes[0].before)
    requires forall k | 0 <= k < n :: PassOk(env, passes[k], start)
    requires forall k | 0 <= k < n - 1 :: Edited(env, passes[k].after, passes[k + 1].before, start)
    ensures Proper(env, passes[n - 1].after)
    ensures
      var backlog := |Due(passes[0].before, start)|;
      |Due(passes[n - 1].after, start)| <= if backlog <= n * 50 then 0 else backlog - n * 50
  {
    var p := passes[n - 1];
    if n > 1 {
      BatchesDrain(env, passes, start, n - 1);
      assert Edited(env, passes[n - 2].after, passes[n - 2 + 1].before, start);
      EditsAddNothing(env, passes[n - 2].after, p.before, start);
    }
    BacklogShrinks(env, p.before, p.after, start, p.now, p.due, p.clock);
    NoneStuck(env, p.before, p.now, p.due, p.clock, start);
    StaysProper(env, p.before, p.after, p.now, p.due, p.clock);
  }
}
