/** What a requested wakeup comes to: when it is due, and what firing it sends. */
module WakeupLaws {
  import opened Text
  import opened Wakeups

  /** What a request gives, blank timestamps and expressions aside. */
  datatype Asked = Delay(seconds: int) | Time(at: string) | Schedule(cron: string)

  function ArgsFor(prompt: string, asked: Asked): Args {
    match asked
    case Delay(seconds) => Args(prompt, Some(seconds), None, None)
    case Time(at) => Args(prompt, None, Some(at), None)
    case Schedule(cron) => Args(prompt, None, None, Some(cron))
  }

  /** A request of one kind is accepted from a session that is not archived exactly with
      something to say, room for it, and a value of its kind. */
  lemma AcceptedWhen(env: Env, archived: Option<bool>, prompt: string, asked: Asked, pending: nat)
    requires env.parseTime("").None?
    ensures Acceptable(env, archived, ArgsFor(prompt, asked), pending) <==>
      && archived.Some? && !archived.value && GoTrimSpace(prompt) != "" && pending < 20
      && match asked
         case Delay(seconds) => 5 <= seconds <= 7 * 24 * 3600
         case Time(at) => env.parseTime(at).Some?
         case Schedule(cron) => 9 <= |cron| <= 120 && env.parseCron(cron).Some?
  {
  }

  /** The time an accepted request asks for. */
  function AskedTime(env: Env, asked: Asked, now: int): Option<int> {
    match asked
    case Delay(seconds) => Some(now + seconds)
    case Time(at) => env.parseTime(at)
    case Schedule(cron) =>
      match env.parseCron(cron)
      case None => None
      case Some(next) => Some(next(now))
  }

  /** Every accepted request is one of the three, beside blanks. */
  lemma OneKind(env: Env, archived: Option<bool>, args: Args, pending: nat)
    requires Acceptable(env, archived, args, pending)
    ensures exists asked :: AskedFor(args, asked)
  {
    if args.delaySeconds.Some? {
      assert AskedFor(args, Delay(args.delaySeconds.value));
    } else if args.at.Some? {
      assert AskedFor(args, Time(args.at.value));
    } else {
      assert AskedFor(args, Schedule(args.cron.value));
    }
  }

  predicate Blank(s: Option<string>) { s.None? || s.value == "" }

  predicate AskedFor(args: Args, asked: Asked) {
    match asked
    case Delay(seconds) =>
      args.delaySeconds == Some(seconds) && Blank(args.at) && Blank(args.cron)
    case Time(at) =>
      args.delaySeconds.None? && at != "" && args.at == Some(at) && Blank(args.cron)
    case Schedule(cron) =>
      args.delaySeconds.None? && args.at.None? && cron != "" && args.cron == Some(cron)
  }

  /** An accepted request is due from the time it asked for on, and not before; firing it
      sends its session the trimmed prompt, unless the session is gone or archived by
      then; and its announcement says so. */
  lemma WakesAsAsked(env: Env, archived: Option<bool>, args: Args, pending: nat, asked: Asked, id: string,
        session: string, table: Table, sessions: map<string, bool>, now: int, t: int)
    requires Acceptable(env, archived, args, pending) && AskedFor(args, asked)
    ensures Meant(env, args, now).Planned? && AskedTime(env, asked, now).Some?
    ensures
      var row, at := RowOf(id, session, args, Meant(env, args, now)), AskedTime(env, asked, now).value;
      && (id in Due(table[row.id := row], t) <==> at <= t)
      && row.session == session && (row.kind == Cron <==> asked.Schedule?)
      && row.cron == (if asked.Schedule? then asked.cron else "")
      && Sent(sessions, row)
         == (if session in sessions && !sessions[session] then
               [Delivery(session, GoTrimSpace(args.prompt), if asked.Schedule? then Cron else OneShot)]
             else [])
      && SpanOf(row) == Span(session, id, at, row.kind, row.cron)
  {
  }

  /** The rows of sessions that are there. */
  function Reachable(sessions: map<string, bool>, rows: seq<Row>): seq<Row> {
    if rows == [] then []
    else
      var init, last := rows[..|rows| - 1], rows[|rows| - 1];
      if last.session in sessions.Keys && sessions[last.session] == false then Reachable(sessions, init) + [last]
      else Reachable(sessions, init)
  }

  /** Firing rows sends exactly the prompts of those whose sessions are there, in order. */
  lemma {:induction false} FiredTells(sessions: map<string, bool>, rows: seq<Row>)
    ensures
      var sent, there := SentAll(sessions, rows), Reachable(sessions, rows);
      |sent| == |there|
      && forall k | 0 <= k < |sent| :: sent[k] == Delivery(there[k].session, there[k].prompt, there[k].kind)
  {
    if rows != [] {
      FiredTells(sessions, rows[..|rows| - 1]);
    }
  }

  /** A one-shot row leaves the table once fired; a recurring one stays with its next
      time, or leaves when its expression does not parse. */
  lemma FiredOnce(env: Env, before: Table, after: Table, now: int, due: seq<Row>, clock: nat -> int, i: nat)
    requires Ticked(env, before, after, now, due, clock) && i < |due|
    ensures due[i].kind == OneShot ==> due[i].id !in after
    ensures due[i].kind == Cron && due[i].cron != "" ==>
      match env.parseCron(due[i].cron)
      case None => due[i].id !in after
      case Some(next) => due[i].id in after && after[due[i].id] == due[i].(fireAt := next(clock(i)))
  {
    assert Lookup(after, due[i].id) == After(env, due[i], clock(i));
  }
}
