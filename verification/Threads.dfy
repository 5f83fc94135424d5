/** Session threads, derived from the lifecycle events of the session log. */
module Threads {
  import opened Folds
  import opened Text

  const PRIMARY := "sthr_primary"

  datatype Body =
    | ThreadCreated(agentId: string, agentName: string, parent: string)
    | SubAgentStarted(taskId: string, agentId: string, agentName: string)
    | SubAgentCompleted(taskId: string, agentId: string, summary: string, failed: bool)
    | ThreadIdle
    | ThreadArchived
    | Delegation(id: string, name: string, message: string, step: string, threadId: string)
    | DelegationResult(toolUseId: string, text: string, isError: bool)
    | UserMessage(text: string)
    | OtherBody(kind: string, text: string)

  /** An event and the thread it names ("" for none). */
  datatype Event = Event(tid: string, body: Body)

  /** An event as stored: when, and on whose behalf it was emitted. */
  datatype Entry = Entry(event: Event, at: int, run: int)

  datatype Status = Active | Running | Idle | Archived

  datatype Thread = Thread(
    id: string, agentId: string, agentName: string, parent: Option<string>,
    createdAt: int, status: Status, archivedAt: Option<int>)

  datatype Session = Session(agentId: string, agentName: string, createdAt: int)

  predicate Lifecycle(e: Event) {
    || e.body.ThreadCreated? || e.body.SubAgentStarted? || e.body.SubAgentCompleted?
    || e.body.ThreadIdle? || e.body.ThreadArchived?
  }

  function Primary(sess: Session): Thread {
    Thread(PRIMARY, sess.agentId, sess.agentName, None, sess.createdAt, Active, None)
  }

  function Opened(tid: string, e: Body, at: int): Thread
    requires e.ThreadCreated?
  {
    Thread(tid, e.agentId, e.agentName, if e.parent == "" then None else Some(e.parent), at, Active, None)
  }

  /** What one event does to the thread it names, None while there is none. */
  function Touch(th: Option<Thread>, entry: Entry): Option<Thread> {
    var e := entry.event;
    match e.body
    case ThreadCreated(_, _, _) =>
      if e.tid == "" || e.tid == PRIMARY || th.Some? then th else Some(Opened(e.tid, e.body, entry.at))
    case SubAgentStarted(_, _, _) => if th.None? then None else Some(th.value.(status := Running))
    case SubAgentCompleted(_, _, _, _) => if th.None? then None else Some(th.value.(status := Idle))
    case ThreadIdle => if th.None? then None else Some(th.value.(status := Idle))
    case ThreadArchived =>
      if th.None? then None else Some(th.value.(status := Archived, archivedAt := Some(entry.at)))
    case _ => th
  }

  function Lookup(threads: map<string, Thread>, tid: string): Option<Thread> {
    if tid in threads then Some(threads[tid]) else None
  }

  function Apply(threads: map<string, Thread>, entry: Entry): map<string, Thread> {
    var th := Touch(Lookup(threads, entry.event.tid), entry);
    if th.None? then threads else threads[entry.event.tid := th.value]
  }

  function Derive(sess: Session, log: seq<Entry>): map<string, Thread> {
    if log == [] then map[PRIMARY := Primary(sess)]
    else Apply(Derive(sess, log[..|log| - 1]), log[|log| - 1])
  }

  // ---- the result list -----------------------------------------------------------

  ghost predicate ByCreation(subs: seq<Thread>) {
    forall i, j | 0 <= i < j < |subs| :: subs[i].createdAt <= subs[j].createdAt
  }

  /** Exactly the threads filed under these ids, each once. */
  ghost predicate Lists(out: seq<Thread>, threads: map<string, Thread>, ids: set<string>) {
    forall th :: multiset(out)[th] == if FiledAs(threads, ids, th) then 1 else 0
  }

  predicate FiledAs(threads: map<string, Thread>, ids: set<string>, th: Thread) {
    th.id in ids && th.id in threads && threads[th.id] == th
  }

  predicate Shown(th: Thread, includeArchived: bool) { includeArchived || !th.status.Archived? }

  function Keep(includeArchived: bool): Thread -> seq<Thread> {
    (th: Thread) => if Shown(th, includeArchived) then [th] else []
  }

  /** Ids are the keys the threads are filed under, and the primary is there. */
  ghost predicate Filed(threads: map<string, Thread>) {
    PRIMARY in threads && forall tid | tid in threads :: threads[tid].id == tid
  }

  lemma {:induction false} DeriveFiled(sess: Session, log: seq<Entry>)
    ensures Filed(Derive(sess, log))
  {
    if log != [] {
      DeriveFiled(sess, log[..|log| - 1]);
    }
  }

  /** First place whose thread was created later. */
  function Place(subs: seq<Thread>, th: Thread): (r: nat)
    ensures r <= |subs|
    ensures forall i | 0 <= i < r :: subs[i].createdAt <= th.createdAt
    ensures r < |subs| ==> th.createdAt < subs[r].createdAt
  {
    if subs == [] || th.createdAt < subs[0].createdAt then 0 else 1 + Place(subs[1..], th)
  }

  lemma InsertedLists(subs: seq<Thread>, r: nat, th: Thread, threads: map<string, Thread>, ids: set<string>)
    requires Lists(subs, threads, ids) && r <= |subs|
    requires th.id !in ids && th.id in threads && threads[th.id] == th
    ensures Lists(subs[..r] + [th] + subs[r..], threads, ids + {th.id})
  {
    assert subs == subs[..r] + subs[r..];
    assert multiset(subs[..r] + [th] + subs[r..]) == multiset(subs) + multiset{th};
  }

  lemma InsertedOrdered(subs: seq<Thread>, th: Thread)
    requires ByCreation(subs)
    ensures ByCreation(subs[..Place(subs, th)] + [th] + subs[Place(subs, th)..])
  {
  }

  /** Every event of the log applied to the threads so far. */
  method CollectThreads(sess: Session, log: seq<Entry>) returns (threads: map<string, Thread>)
    ensures threads == Derive(sess, log)
  {
    threads := map[PRIMARY := Primary(sess)];
    for i := 0 to |log|
      invariant threads == Derive(sess, log[..i])
    {
      assert log[..i + 1][..i] == log[..i];
      var e, at := log[i].event, log[i].at;
      match e.body {
        case ThreadCreated(agentId, agentName, parent) =>
          if e.tid == "" || e.tid == PRIMARY || e.tid in threads {
            assert Apply(threads, log[i]) == threads;
            continue;
          }
          threads := threads[e.tid := Thread(
            e.tid, agentId, agentName, if parent == "" then None else Some(parent), at, Active, None)];
        case SubAgentStarted(_, _, _) =>
          if e.tid in threads {
            threads := threads[e.tid := threads[e.tid].(status := Running)];
          }
        case SubAgentCompleted(_, _, _, _) =>
          if e.tid in threads {
            threads := threads[e.tid := threads[e.tid].(status := Idle)];
          }
        case ThreadIdle =>
          if e.tid in threads {
            threads := threads[e.tid := threads[e.tid].(status := Idle)];
          }
        case ThreadArchived =>
          if e.tid in threads {
            threads := threads[e.tid := threads[e.tid].(status := Archived, archivedAt := Some(at))];
          }
        case _ =>
          assert Apply(threads, log[i]) == threads;
      }
    }
    assert log[..|log|] == log;
  }

  /** The threads other than the primary, taken in any order, by creation time. */
  method OrderSubs(threads: map<string, Thread>) returns (subs: seq<Thread>)
    requires Filed(threads)
    ensures ByCreation(subs) && Lists(subs, threads, threads.Keys - {PRIMARY})
  {
    subs := [];
    var left := threads.Keys - {PRIMARY};
    ghost var done: set<string> := {};
    while left != {}
      invariant left !! done && left + done == threads.Keys - {PRIMARY}
      invariant ByCreation(subs) && Lists(subs, threads, done)
      decreases |left|
    {
      var id :| id in left;
      var r := Place(subs, threads[id]);
      InsertedOrdered(subs, threads[id]);
      InsertedLists(subs, r, threads[id], threads, done);
      subs := subs[..r] + [threads[id]] + subs[r..];
      left, done := left - {id}, done + {id};
    }
    assert done == threads.Keys - {PRIMARY};
  }

  /** deriveSessionThreads: the primary thread first, the others by creation time;
      archived ones only on request. */
  method DeriveSessionThreads(sess: Session, log: seq<Entry>, includeArchived: bool)
    returns (out: seq<Thread>)
    ensures exists all :: Listing(Derive(sess, log), all) && out == Gather(Keep(includeArchived), all)
  {
    var threads := CollectThreads(sess, log);
    DeriveFiled(sess, log);
    var subs := OrderSubs(threads);
    var ordered := [threads[PRIMARY]] + subs;
    PrimaryFirst(threads, subs);
    assert Listing(threads, ordered);
    out := [];
    for i := 0 to |ordered|
      invariant out == Gather(Keep(includeArchived), ordered[..i])
    {
      GatherExtends(Keep(includeArchived), ordered[..i], ordered[i]);
      assert ordered[..i + 1] == ordered[..i] + [ordered[i]];
      if ordered[i].status.Archived? && !includeArchived {
        assert out + [] == out;
        continue;
      }
      out := out + [ordered[i]];
    }
    assert ordered[..|ordered|] == ordered;
  }

  /** Every thread once: the primary, then the others by creation time. */
  ghost predicate Listing(threads: map<string, Thread>, all: seq<Thread>) {
    && Filed(threads) && all != [] && all[0] == threads[PRIMARY] && ByCreation(all[1..])
    && Lists(all, threads, threads.Keys)
  }

  lemma PrimaryFirst(threads: map<string, Thread>, subs: seq<Thread>)
    requires Filed(threads) && Lists(subs, threads, threads.Keys - {PRIMARY})
    ensures Lists([threads[PRIMARY]] + subs, threads, threads.Keys)
  {
    assert [threads[PRIMARY]] + subs == subs[..0] + [threads[PRIMARY]] + subs[0..];
    InsertedLists(subs, 0, threads[PRIMARY], threads, threads.Keys - {PRIMARY});
    assert threads.Keys - {PRIMARY} + {PRIMARY} == threads.Keys;
  }

  // ---- a thread is made of its own events only -------------------------------------------

  /** The lifecycle events that name a thread. */
  function Own(tid: string): Entry -> seq<Entry> {
    (entry: Entry) => if Lifecycle(entry.event) && entry.event.tid == tid then [entry] else []
  }

  lemma ApplyOther(threads: map<string, Thread>, entry: Entry, tid: string)
    requires !(Lifecycle(entry.event) && entry.event.tid == tid)
    ensures Lookup(Apply(threads, entry), tid) == Lookup(threads, tid)
  {
  }

  lemma ApplyOwn(threads: map<string, Thread>, entry: Entry, tid: string)
    requires entry.event.tid == tid
    ensures Lookup(Apply(threads, entry), tid) == Touch(Lookup(threads, tid), entry)
  {
  }

  /** Other threads' events, and events that are not of the lifecycle, never matter. */
  lemma {:induction false} OnlyOwnEvents(sess: Session, log: seq<Entry>, tid: string)
    ensures Lookup(Derive(sess, log), tid) == Lookup(Derive(sess, Gather(Own(tid), log)), tid)
  {
    if log != [] {
      var init, last := log[..|log| - 1], log[|log| - 1];
      var own := Gather(Own(tid), init);
      OnlyOwnEvents(sess, init, tid);
      assert log == init + [last];
      GatherExtends(Own(tid), init, last);
      if Lifecycle(last.event) && last.event.tid == tid {
        ApplyOwn(Derive(sess, init), last, tid);
        assert (own + [last])[..|own|] == own;
        ApplyOwn(Derive(sess, own), last, tid);
      } else {
        ApplyOther(Derive(sess, init), last, tid);
        assert own + [] == own;
      }
    }
  }

  // ---- what a thread is ------------------------------------------------------------------

  predicate Creates(entry: Entry, tid: string) { entry.event.tid == tid && entry.event.body.ThreadCreated? }

  /** The first creation under an id, or the end of the log. */
  function FirstCreation(log: seq<Entry>, tid: string): (k: nat)
    ensures k <= |log| && (k < |log| ==> Creates(log[k], tid))
    ensures forall j: nat | j < k :: !Creates(log[j], tid)
  {
    if log == [] then 0
    else
      var n := |log| - 1;
      var k := FirstCreation(log[..n], tid);
      if k < n || Creates(log[n], tid) then k else |log|
  }

  /** The status of a thread from a place in the log on: what happened to it last. */
  function LastStatus(log: seq<Entry>, tid: string, from: nat): Status {
    if |log| <= from then Active
    else
      var last := log[|log| - 1].event;
      if last.tid == tid && last.body.SubAgentStarted? then Running
      else if last.tid == tid && (last.body.SubAgentCompleted? || last.body.ThreadIdle?) then Idle
      else if last.tid == tid && last.body.ThreadArchived? then Archived
      else LastStatus(log[..|log| - 1], tid, from)
  }

  /** When it was last archived. */
  function LastArchived(log: seq<Entry>, tid: string, from: nat): Option<int> {
    if |log| <= from then None
    else
      var last := log[|log| - 1];
      if last.event.tid == tid && last.event.body.ThreadArchived? then Some(last.at)
      else LastArchived(log[..|log| - 1], tid, from)
  }

  /** Who a created thread is: what its first creation says, and what happened since. */
  ghost predicate Remembers(th: Thread, log: seq<Entry>, tid: string, k: nat)
    requires k < |log| && Creates(log[k], tid)
  {
    var created := log[k].event.body;
    && th.id == tid && th.agentId == created.agentId && th.agentName == created.agentName
    && (created.parent == "" ==> th.parent.None?) && (created.parent != "" ==> th.parent == Some(created.parent))
    && th.createdAt == log[k].at
    && th.status == LastStatus(log, tid, k + 1) && th.archivedAt == LastArchived(log, tid, k + 1)
  }

  /** There is a thread under an id exactly if one was created, and it is made of its first
      creation and of what happened to it since. */
  lemma {:induction false} ThreadTells(sess: Session, log: seq<Entry>, tid: string)
    requires tid != "" && tid != PRIMARY
    ensures
      var th, k := Lookup(Derive(sess, log), tid), FirstCreation(log, tid);
      (th.Some? <==> k < |log|) && (th.Some? ==> Remembers(th.value, log, tid, k))
  {
    if log != [] {
      var n := |log| - 1;
      ThreadTells(sess, log[..n], tid);
      assert log[..n] + [log[n]] == log;
      if log[n].event.tid == tid {
        ApplyOwn(Derive(sess, log[..n]), log[n], tid);
      } else {
        ApplyOther(Derive(sess, log[..n]), log[n], tid);
      }
    }
  }

  /** The primary thread is the session's own, from the start. */
  lemma {:induction false} PrimaryTells(sess: Session, log: seq<Entry>)
    ensures Lookup(Derive(sess, log), "sthr_primary") ==
      Some(Thread("sthr_primary", sess.agentId, sess.agentName, None, sess.createdAt,
                  LastStatus(log, "sthr_primary", 0), LastArchived(log, "sthr_primary", 0)))
  {
    if log != [] {
      var n := |log| - 1;
      PrimaryTells(sess, log[..n]);
      if log[n].event.tid == "sthr_primary" {
        ApplyOwn(Derive(sess, log[..n]), log[n], "sthr_primary");
      } else {
        ApplyOther(Derive(sess, log[..n]), log[n], "sthr_primary");
      }
    }
  }

  /** A listing leaves out exactly the archived threads, and none on request. */
  lemma {:induction false} ListedExactly(all: seq<Thread>, includeArchived: bool, th: Thread)
    ensures th in Gather(Keep(includeArchived), all) <==> th in all && (includeArchived || th.status != Archived)
  {
    if all != [] {
      ListedExactly(all[..|all| - 1], includeArchived, th);
      assert all == all[..|all| - 1] + [all[|all| - 1]];
    }
  }

  /** Listed ids are unique. */
  lemma UniqueIds(out: seq<Thread>, threads: map<string, Thread>, ids: set<string>, i: nat, j: nat)
    requires Lists(out, threads, ids) && i < j < |out|
    ensures out[i].id != out[j].id
  {
    var a, b := out[..j], out[j..];
    assert out == a + b && out[i] == a[i] && out[j] == b[0];
    assert multiset(out) == multiset(a) + multiset(b);
    assert out[i] in multiset(a) && out[j] in multiset(b);
    assert multiset(out)[out[i]] >= 1 && multiset(out)[out[j]] >= 1;
  }
}
