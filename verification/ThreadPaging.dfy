/** Paging through the events of one thread of a session log. */
module ThreadPaging {
  import opened Folds
  import opened Text

  const PRIMARY := "sthr_primary"

  /** How many log events one request looks at. */
  const WINDOW := 10000

  /** A stored event: its sequence number and session_thread_id ("" when absent). */
  datatype Event = Event(seqNo: int, thread: string, payload: string)

  /** Sequence numbers start at 1 and ascend. */
  ghost predicate Ascending(log: seq<Event>) {
    (forall i | 0 <= i < |log| :: log[i].seqNo > 0) && forall i, j | 0 <= i < j < |log| :: log[i].seqNo < log[j].seqNo
  }

  predicate Matches(e: Event, tid: string) { (if e.thread == "" then PRIMARY else e.thread) == tid }

  function Mine(tid: string): Event -> seq<Event> { (e: Event) => if Matches(e, tid) then [e] else [] }

  function Own(events: seq<Event>, tid: string): seq<Event> { Gather(Mine(tid), events) }

  /** An event is the primary thread's when it names that thread or none, and another
      thread's when it names that. */
  predicate BelongsTo(e: Event, tid: string) { if e.thread == "" then tid == "sthr_primary" else tid == e.thread }

  /** A thread has its own events of the log, in order, and nothing else. */
  lemma {:induction false} OwnExactly(log: seq<Event>, e: Event, tid: string)
    ensures Own([], tid) == []
    ensures Own(log + [e], tid) == if BelongsTo(e, tid) then Own(log, tid) + [e] else Own(log, tid)
    ensures forall x :: x in Own(log, tid) <==> x in log && BelongsTo(x, tid)
  {
    GatherExtends(Mine(tid), log, e);
    assert Own(log, tid) + [] == Own(log, tid);
    OwnMembers(log, tid);
  }

  lemma {:induction false} OwnMembers(log: seq<Event>, tid: string)
    ensures forall x :: x in Own(log, tid) <==> x in log && BelongsTo(x, tid)
  {
    if log != [] {
      OwnMembers(log[..|log| - 1], tid);
      assert log == log[..|log| - 1] + [log[|log| - 1]];
    }
  }

  // ---- one request -----------------------------------------------------------------

  function Min(a: nat, b: nat): nat { if a < b then a else b }

  /** How many events a cursor skips; cursors that are not positive skip none. */
  function Skipped(log: seq<Event>, after: int): (n: nat)
    ensures n <= |log|
  {
    if log == [] || after <= 0 || log[0].seqNo > after then 0 else 1 + Skipped(log[1..], after)
  }

  /** ListEvents, ascending: at most `limit` events after the cursor. */
  function ListEvents(log: seq<Event>, after: int, limit: nat): seq<Event> {
    var from := Skipped(log, after);
    log[from..Min(from + limit, |log|)]
  }

  datatype Page = Page(data: seq<Event>, hasMore: bool, nextPage: Option<int>)

  /** The page of a thread after a cursor. */
  function PageOf(log: seq<Event>, tid: string, after: int, limit: nat): Page {
    Cut(Own(ListEvents(log, after, WINDOW), tid), limit)
  }

  function Cut(mine: seq<Event>, limit: nat): Page {
    var data := mine[..Min(limit, |mine|)];
    Page(data, |data| == limit, if |data| == limit && data != [] then Some(data[|data| - 1].seqNo) else None)
  }

  method FilterEventsForThread(events: seq<Event>, tid: string) returns (out: seq<Event>)
    ensures out == Own(events, tid)
  {
    out := [];
    for i := 0 to |events|
      invariant out == Own(events[..i], tid)
    {
      assert events[..i + 1][..i] == events[..i];
      if Matches(events[i], tid) {
        out := out + [events[i]];
      } else {
        assert out + [] == out;
      }
    }
    assert events[..|events|] == events;
  }

  /** handleSessionThreadEvents; `asked` is the limit parameter, 0 when absent. */
  method HandleSessionThreadEvents(log: seq<Event>, tid: string, asked: int, after: int) returns (page: Page)
    ensures page == PageOf(log, tid, after, if asked > 0 then asked else 100)
  {
    var limit: nat := 100;
    if asked > 0 {
      limit := asked;
    }
    var events := ListEvents(log, after, WINDOW);
    var filtered := FilterEventsForThread(events, tid);
    if |filtered| > limit {
      filtered := filtered[..limit];
    }
    var hasMore := |filtered| == limit;
    page := Page(filtered, hasMore, if hasMore && |filtered| > 0 then Some(filtered[|filtered| - 1].seqNo) else None);
  }

  // ---- following the pages -----------------------------------------------------------

  lemma {:induction false} SkippedExactly(log: seq<Event>, p: nat)
    requires Ascending(log) && p <= |log|
    ensures Skipped(log, if p == 0 then 0 else log[p - 1].seqNo) == p
  {
    if p > 0 {
      var rest := log[1..];
      assert Ascending(rest) by {
        assert forall i | 0 <= i < |rest| :: rest[i] == log[i + 1];
      }
      if p == 1 {
        SkippedNone(rest, log[0].seqNo);
      } else {
        SkippedExactly(rest, p - 1);
        assert rest[p - 2] == log[p - 1];
      }
    }
  }

  lemma SkippedNone(log: seq<Event>, after: int)
    requires log != [] ==> log[0].seqNo > after
    ensures Skipped(log, after) == 0
  {
  }

  /** Position right after the c-th event of the thread. */
  function EndOf(log: seq<Event>, tid: string, c: nat): (p: nat)
    requires c <= |Own(log, tid)|
    ensures p <= |log|
  {
    if c == 0 then 0
    else if c <= |Own(log[..|log| - 1], tid)| then EndOf(log[..|log| - 1], tid, c)
    else |log|
  }

  lemma {:induction false} EndIs(log: seq<Event>, tid: string, c: nat)
    requires c <= |Own(log, tid)|
    ensures
      var p := EndOf(log, tid, c);
      Own(log[..p], tid) == Own(log, tid)[..c] && (c > 0 ==> p > 0 && log[p - 1] == Own(log, tid)[c - 1])
  {
    if c > 0 {
      var init := log[..|log| - 1];
      if c <= |Own(init, tid)| {
        EndIs(init, tid, c);
        assert init[..EndOf(init, tid, c)] == log[..EndOf(init, tid, c)];
      } else {
        assert log[..|log|] == log;
      }
    }
  }

  /** Own events of a stretch of the log, by how many come before its ends. */
  lemma Stretch(log: seq<Event>, tid: string, from: nat, to: nat)
    requires from <= to <= |log|
    ensures
      var own, a, b := Own(log, tid), |Own(log[..from], tid)|, |Own(log[..to], tid)|;
      a <= b <= |own| && Own(log[from..to], tid) == own[a..b]
  {
    assert log[..to] == log[..from] + log[from..to] && log == log[..to] + log[to..];
    GatherAppend(Mine(tid), log[..from], log[from..to]);
    GatherAppend(Mine(tid), log[..to], log[to..]);
  }

  /** Own events up to where a request ends that starts after the c-th of them. */
  function SeenUpTo(log: seq<Event>, tid: string, c: nat): nat
    requires c <= |Own(log, tid)|
  {
    |Own(log[..Min(EndOf(log, tid, c) + WINDOW, |log|)], tid)|
  }

  /** The request after the c-th own event finds a full page, or all that is left. */
  predicate Fed(log: seq<Event>, tid: string, limit: nat, c: nat) {
    c <= |Own(log, tid)| ==> SeenUpTo(log, tid, c) >= Min(c + limit, |Own(log, tid)|)
  }

  /** The cursor that stands after the c-th own event. */
  function Cursor(log: seq<Event>, tid: string, c: nat): int
    requires c <= |Own(log, tid)|
  {
    if c == 0 then 0 else Own(log, tid)[c - 1].seqNo
  }

  /** The cursor after the c-th own event skips exactly what precedes its end. */
  lemma CursorSkips(log: seq<Event>, tid: string, c: nat)
    requires Ascending(log) && c <= |Own(log, tid)|
    ensures Skipped(log, Cursor(log, tid, c)) == EndOf(log, tid, c)
  {
    EndIs(log, tid, c);
    SkippedExactly(log, EndOf(log, tid, c));
  }

  /** The own events a request sees that starts after the c-th. */
  lemma WindowAfter(log: seq<Event>, tid: string, c: nat)
    requires Ascending(log) && c <= |Own(log, tid)|
    ensures
      var own, seen := Own(log, tid), SeenUpTo(log, tid, c);
      c <= seen <= |own| && Own(ListEvents(log, Cursor(log, tid, c), WINDOW), tid) == own[c..seen]
  {
    var from := EndOf(log, tid, c);
    CursorSkips(log, tid, c);
    EndIs(log, tid, c);
    Stretch(log, tid, from, Min(from + WINDOW, |log|));
  }

  lemma CutLeads(own: seq<Event>, c: nat, seen: nat, limit: nat)
    requires c <= seen <= |own| && limit > 0
    ensures
      var page := Cut(own[c..seen], limit);
      && (page.hasMore <==> page.nextPage.Some?)
      && (page.nextPage.None? ==> seen < c + limit && page.data == own[c..seen])
      && (page.nextPage.Some? ==>
            c + limit <= seen && page.data == own[c..c + limit] && page.nextPage.value == own[c + limit - 1].seqNo)
  {
  }

  /** Where a page leads: to the next full page, or it was the last. */
  lemma PageLeads(log: seq<Event>, tid: string, limit: nat, c: nat)
    requires Ascending(log) && c <= |Own(log, tid)| && limit > 0
    ensures
      var own, seen, page := Own(log, tid), SeenUpTo(log, tid, c), PageOf(log, tid, Cursor(log, tid, c), limit);
      && c <= seen <= |own| && (page.hasMore <==> page.nextPage.Some?)
      && (page.nextPage.None? ==> seen < c + limit && page.data == own[c..seen])
      && (page.nextPage.Some? ==>
            && c + limit <= |own| && Fed(log, tid, limit, c) && page.data == own[c..c + limit]
            && page.nextPage.value == Cursor(log, tid, c + limit))
  {
    WindowAfter(log, tid, c);
    CutLeads(Own(log, tid), c, SeenUpTo(log, tid, c), limit);
  }

  function PageStart(k: nat, limit: nat): nat { k * limit }

  /** No request stops short: each finds a full page or all that is left. */
  ghost predicate NeverStarves(log: seq<Event>, tid: string, limit: nat) {
    forall k: nat {:trigger Fed(log, tid, limit, PageStart(k, limit))} :: Fed(log, tid, limit, PageStart(k, limit))
  }

  ghost predicate FedBefore(log: seq<Event>, tid: string, limit: nat, k: nat) {
    forall j: nat {:trigger Fed(log, tid, limit, PageStart(j, limit))} | j < k ::
      Fed(log, tid, limit, PageStart(j, limit))
  }

  /** A client that follows next_page to its end gets a part of the thread from its
      start, in order and each event once; and all of it exactly when no request's
      window starves. */
  method FollowPages(log: seq<Event>, tid: string, limit: nat) returns (got: seq<Event>)
    requires Ascending(log) && limit > 0
    ensures got <= Own(log, tid)
    ensures got == Own(log, tid) <==> NeverStarves(log, tid, limit)
  {
    ghost var own, k, c := Own(log, tid), 0, 0;
    got := [];
    var after := 0;
    while true
      invariant c == PageStart(k, limit) && c <= |own| && after == Cursor(log, tid, c)
      invariant got == own[..c]
      invariant FedBefore(log, tid, limit, k)
      decreases |own| - c
    {
      var page := RequestPage(log, tid, limit, after, c);
      if page.nextPage.None? {
        Concluded(log, tid, limit, k, got, page.data);
        got := got + page.data;
        return;
      }
      GoesOn(own, c, limit, got, page.data);
      got := got + page.data;
      after := page.nextPage.value;
      NextStart(k, limit);
      k, c := k + 1, c + limit;
    }
  }

  /** The client's request after c own events. */
  method RequestPage(log: seq<Event>, tid: string, limit: nat, after: int, ghost c: nat) returns (page: Page)
    requires Ascending(log) && limit > 0 && c <= |Own(log, tid)| && after == Cursor(log, tid, c)
    ensures c <= SeenUpTo(log, tid, c) <= |Own(log, tid)|
    ensures page.nextPage.None? ==>
      SeenUpTo(log, tid, c) < c + limit && page.data == Own(log, tid)[c..SeenUpTo(log, tid, c)]
    ensures page.nextPage.Some? ==>
      && c + limit <= |Own(log, tid)| && Fed(log, tid, limit, c) && page.data == Own(log, tid)[c..c + limit]
      && page.nextPage.value == Cursor(log, tid, c + limit)
  {
    PageLeads(log, tid, limit, c);
    page := HandleSessionThreadEvents(log, tid, limit, after);
  }

  lemma NextStart(k: nat, limit: nat)
    ensures PageStart(k + 1, limit) == PageStart(k, limit) + limit
  {
  }

  lemma LaterStarts(k: nat, j: nat, limit: nat)
    requires k < j
    ensures PageStart(j, limit) >= PageStart(k, limit) + limit
  {
    assert j * limit == (j - k - 1) * limit + (k + 1) * limit;
  }

  /** The page that is not full decides. */
  lemma LastPage(log: seq<Event>, tid: string, limit: nat, k: nat)
    requires PageStart(k, limit) <= |Own(log, tid)|
    requires SeenUpTo(log, tid, PageStart(k, limit)) < PageStart(k, limit) + limit
    requires FedBefore(log, tid, limit, k)
    ensures SeenUpTo(log, tid, PageStart(k, limit)) == |Own(log, tid)| <==> NeverStarves(log, tid, limit)
  {
    var c, own := PageStart(k, limit), Own(log, tid);
    Stretch(log, tid, 0, Min(EndOf(log, tid, c) + WINDOW, |log|));
    if SeenUpTo(log, tid, c) == |own| {
      forall j: nat ensures Fed(log, tid, limit, PageStart(j, limit)) {
        if k < j {
          LaterStarts(k, j, limit);
        }
      }
    } else {
      assert !Fed(log, tid, limit, PageStart(k, limit));
    }
  }

  lemma GoesOn(own: seq<Event>, c: nat, limit: nat, got: seq<Event>, data: seq<Event>)
    requires c + limit <= |own| && got == own[..c] && data == own[c..c + limit]
    ensures got + data == own[..c + limit]
  {
  }

  /** What the client has after its last page. */
  lemma Concluded(log: seq<Event>, tid: string, limit: nat, k: nat, got: seq<Event>, data: seq<Event>)
    requires
      var own, c := Own(log, tid), PageStart(k, limit);
      && c <= |own| && got == own[..c]
      && c <= SeenUpTo(log, tid, c) <= |own| && data == own[c..SeenUpTo(log, tid, c)]
      && SeenUpTo(log, tid, c) < c + limit
    requires FedBefore(log, tid, limit, k)
    ensures got + data <= Own(log, tid)
    ensures got + data == Own(log, tid) <==> NeverStarves(log, tid, limit)
  {
    var own, seen := Own(log, tid), SeenUpTo(log, tid, PageStart(k, limit));
    assert got + data == own[..seen];
    LastPage(log, tid, limit, k);
  }

  /** A session of at most 10000 events never starves. */
  lemma SmallLogs(log: seq<Event>, tid: string, limit: nat)
    requires |log| <= 10000
    ensures NeverStarves(log, tid, limit)
  {
    forall k: nat ensures Fed(log, tid, limit, PageStart(k, limit)) {
      assert log[..|log|] == log;
    }
  }

  /** A window's worth of other threads' events hides what follows. */
  lemma CrowdedOut(log: seq<Event>, tid: string, limit: nat)
    requires |log| > 10000 && Own(log[..10000], tid) == [] && Own(log, tid) != [] && limit > 0
    ensures !NeverStarves(log, tid, limit)
  {
    assert PageStart(0, limit) == 0;
    assert !Fed(log, tid, limit, PageStart(0, limit));
  }
}
