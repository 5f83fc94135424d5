/** The human-in-the-loop window: the stop reason that reports it, the tool calls
    that go with it, and how answering it drains the log. */
module HitlWindow {
  import opened Folds
  import opened Text
  import opened Wire
  import opened CustomTools

  // ---- stop reason --------------------------------------------------------

  datatype StopReason = EndTurn | RequiresAction(eventIds: seq<string>)

  /** The order of sort.Strings. */
  predicate AtMost(a: string, b: string) {
    a == "" || (b != "" && (a[0] < b[0] || (a[0] == b[0] && AtMost(a[1..], b[1..]))))
  }

  ghost predicate Ordered(ids: seq<string>) {
    forall i, j | 0 <= i < j < |ids| :: AtMost(ids[i], ids[j])
  }

  lemma {:induction false} AtMostTotal(a: string, b: string)
    ensures AtMost(a, b) || AtMost(b, a)
    ensures AtMost(a, b) && AtMost(b, a) ==> a == b
  {
    if a != "" && b != "" && a[0] == b[0] {
      AtMostTotal(a[1..], b[1..]);
      assert a == [a[0]] + a[1..] && b == [b[0]] + b[1..];
    }
  }

  lemma {:induction false} AtMostTransitive(a: string, b: string, c: string)
    requires AtMost(a, b) && AtMost(b, c)
    ensures AtMost(a, c)
  {
    if a != "" && a[0] == b[0] == c[0] {
      AtMostTransitive(a[1..], b[1..], c[1..]);
    }
  }

  /** Character by character: a prefix, or smaller where the two first differ. */
  lemma {:induction false} LexicalOrder(a: string, b: string)
    ensures AtMost(a, b) <==>
      a <= b || exists k :: 0 <= k < |a| && k < |b| && a[..k] == b[..k] && a[k] < b[k]
  {
    if a != "" && b != "" && a[0] == b[0] {
      LexicalOrder(a[1..], b[1..]);
      assert a == [a[0]] + a[1..] && b == [b[0]] + b[1..];
      if k :| 0 <= k < |a| && k < |b| && a[..k] == b[..k] && a[k] < b[k] {
        assert a[1..][..k - 1] == a[..k][1..] == b[1..][..k - 1];
        assert a[1..][k - 1] == a[k] && b[1..][k - 1] == b[k];
      }
      if k :| 0 <= k < |a[1..]| && k < |b[1..]| && a[1..][..k] == b[1..][..k] && a[1..][k] < b[1..][k] {
        assert a[..k + 1] == [a[0]] + a[1..][..k] && b[..k + 1] == [b[0]] + b[1..][..k];
        assert a[k + 1] < b[k + 1];
      }
    } else if a != "" && b != "" {
      assert a[..0] == b[..0];
      if k :| 0 <= k < |a| && k < |b| && a[..k] == b[..k] && a[k] < b[k] {
        assert k > 0 ==> a[..k][0] == b[..k][0];
      }
    }
  }

  /** Position of `id` in an ordered list. */
  function Rank(ids: seq<string>, id: string): nat
  {
    if ids == [] || AtMost(id, ids[0]) then 0 else 1 + Rank(ids[1..], id)
  }

  lemma {:induction false} RankSplits(ids: seq<string>, id: string)
    requires Ordered(ids)
    ensures Rank(ids, id) <= |ids|
    ensures forall i | 0 <= i < |ids| :: if i < Rank(ids, id) then AtMost(ids[i], id) else AtMost(id, ids[i])
  {
    if ids != [] {
      AtMostTotal(id, ids[0]);
      if AtMost(id, ids[0]) {
        forall i | 0 < i < |ids| ensures AtMost(id, ids[i]) {
          AtMostTransitive(id, ids[0], ids[i]);
        }
      } else {
        RankSplits(ids[1..], id);
        forall i | 0 < i < |ids|
          ensures if i < Rank(ids, id) then AtMost(ids[i], id) else AtMost(id, ids[i])
        {
          assert ids[i] == ids[1..][i - 1];
        }
      }
    }
  }

  lemma InsertOrdered<T>(le: (T, T) -> bool, ids: seq<T>, r: nat, id: T)
    requires r <= |ids|
    requires forall i, j | 0 <= i < j < |ids| :: le(ids[i], ids[j])
    requires forall i | 0 <= i < |ids| :: if i < r then le(ids[i], id) else le(id, ids[i])
    ensures
      var s := ids[..r] + [id] + ids[r..];
      forall i, j | 0 <= i < j < |s| :: le(s[i], s[j])
  {
  }

  lemma InsertKeeps(ids: seq<string>, id: string)
    requires Ordered(ids)
    ensures
      var r := Rank(ids, id);
      && r <= |ids|
      && Ordered(ids[..r] + [id] + ids[r..])
      && multiset(ids[..r] + [id] + ids[r..]) == multiset(ids) + multiset{id}
  {
    var r := Rank(ids, id);
    RankSplits(ids, id);
    assert Ordered(ids[..r] + [id] + ids[r..]) by {
      InsertOrdered(AtMost, ids, r, id);
    }
    assert ids == ids[..r] + ids[r..];
  }

  /** sort.Strings on a copy. */
  method SortStrings(ids: seq<string>) returns (sorted: seq<string>)
    ensures Ordered(sorted) && multiset(sorted) == multiset(ids)
  {
    sorted := [];
    for i := 0 to |ids|
      invariant Ordered(sorted) && multiset(sorted) == multiset(ids[..i])
    {
      assert ids[..i + 1] == ids[..i] + [ids[i]];
      var r := Rank(sorted, ids[i]);
      InsertKeeps(sorted, ids[i]);
      sorted := sorted[..r] + [ids[i]] + sorted[r..];
    }
    assert ids[..|ids|] == ids;
  }

  lemma SameHead(a: seq<string>, b: seq<string>)
    requires a != [] && b != [] && Ordered(a) && Ordered(b) && multiset(a) == multiset(b)
    ensures a[0] == b[0]
  {
    assert a[0] in multiset(b) && b[0] in multiset(a);
    AtMostTotal(a[0], a[0]);
    AtMostTotal(a[0], b[0]);
  }

  /** There is only one ordered arrangement, so SortStrings has one result. */
  lemma {:induction false} OneOrder(a: seq<string>, b: seq<string>)
    requires Ordered(a) && Ordered(b) && multiset(a) == multiset(b)
    ensures a == b
  {
    assert |multiset(a)| == |a| && |multiset(b)| == |b|;
    if a != [] {
      SameHead(a, b);
      assert a == [a[0]] + a[1..] && b == [b[0]] + b[1..];
      assert multiset(a[1..]) == multiset(a) - multiset{a[0]};
      assert multiset(b[1..]) == multiset(b) - multiset{b[0]};
      OneOrder(a[1..], b[1..]);
    }
  }

  /** BuildIdleStopReason. */
  method BuildIdleStopReason(pending: seq<string>) returns (reason: StopReason)
    ensures reason.EndTurn? <==> pending == []
    ensures reason.RequiresAction? ==>
      && Ordered(reason.eventIds) && |reason.eventIds| <= WINDOW
      && (|pending| <= WINDOW ==> multiset(reason.eventIds) == multiset(pending))
      && exists all | Ordered(all) && multiset(all) == multiset(pending) :: reason.eventIds == Window(all)
  {
    if pending == [] {
      return EndTurn;
    }
    var ids := SortStrings(pending);
    ghost var all := ids;
    assert |multiset(all)| == |all| && |multiset(pending)| == |pending|;
    if |ids| > WINDOW {
      ids := ids[..WINDOW];
    }
    assert ids == Window(all);
    return RequiresAction(ids);
  }

  // ---- the calls behind the ids ---------------------------------------------

  datatype PendingCall = PendingCall(toolCallId: string, toolName: string, args: ToolInput)

  predicate Announces(e: WireEvent, id: string) {
    (e.CustomToolUse? || e.ToolUse?) && e.id == id && id != ""
  }

  /** The latest call announced under `id`. */
  function LatestUse(events: seq<WireEvent>, id: string): Option<PendingCall> {
    if events == [] then None
    else
      var e := events[|events| - 1];
      if Announces(e, id) then Some(PendingCall(e.id, e.name, e.input))
      else LatestUse(events[..|events| - 1], id)
  }

  lemma {:induction false} LatestAfter(events: seq<WireEvent>, more: seq<WireEvent>, id: string)
    requires forall e | e in more :: !(e.CustomToolUse? && e.id == id) && !(e.ToolUse? && e.id == id)
    ensures LatestUse(events + more, id) == LatestUse(events, id)
  {
    if more == [] {
      assert events + more == events;
    } else {
      var init := more[..|more| - 1];
      assert (events + more)[..|events + more| - 1] == events + init;
      assert more[|more| - 1] in more;
      LatestAfter(events, init, id);
    }
  }

  /** A pending id leads to the name and input of the call last announced under it; an id
      under which none was announced leads to none. */
  lemma CallOf(events: seq<WireEvent>, more: seq<WireEvent>, id: string, name: string, input: ToolInput)
    requires id != "" && forall e | e in more :: !(e.CustomToolUse? && e.id == id) && !(e.ToolUse? && e.id == id)
    ensures Resolve(events + [CustomToolUse(id, name, input)] + more, id) == [PendingCall(id, name, input)]
    ensures Resolve(events + [ToolUse(id, name, input)] + more, id) == [PendingCall(id, name, input)]
    ensures Resolve(more, id) == []
  {
    var custom, builtin := events + [CustomToolUse(id, name, input)], events + [ToolUse(id, name, input)];
    assert custom[..|events|] == events && builtin[..|events|] == events;
    LatestAfter(custom, more, id);
    LatestAfter(builtin, more, id);
    LatestAfter([], more, id);
    assert [] + more == more;
  }

  method IndexToolUses(events: seq<WireEvent>) returns (byId: map<string, PendingCall>)
    ensures forall id :: (id in byId <==> LatestUse(events, id).Some?)
    ensures forall id | id in byId :: LatestUse(events, id) == Some(byId[id])
  {
    byId := map[];
    for i := 0 to |events|
      invariant forall id :: (id in byId <==> LatestUse(events[..i], id).Some?)
      invariant forall id | id in byId :: LatestUse(events[..i], id) == Some(byId[id])
    {
      var e := events[i];
      assert events[..i + 1][..i] == events[..i];
      if (e.CustomToolUse? || e.ToolUse?) && e.id != "" {
        byId := byId[e.id := PendingCall(e.id, e.name, e.input)];
      }
    }
    assert events[..|events|] == events;
  }

  function Resolve(events: seq<WireEvent>, id: string): seq<PendingCall> {
    match LatestUse(events, id)
    case None => []
    case Some(call) => [call]
  }

  /** BuildPendingToolCalls. */
  method BuildPendingToolCalls(events: seq<WireEvent>, ids: seq<string>) returns (calls: seq<PendingCall>)
    ensures calls == Gather((id: string) => Resolve(events, id), ids)
  {
    calls := [];
    if ids == [] {
      return;
    }
    var byId := IndexToolUses(events);
    for i := 0 to |ids|
      invariant calls == Gather((id: string) => Resolve(events, id), ids[..i])
    {
      GatherExtends((id: string) => Resolve(events, id), ids[..i], ids[i]);
      assert ids[..i + 1] == ids[..i] + [ids[i]];
      if ids[i] !in byId {
        assert calls + [] == calls;
        continue;
      }
      calls := calls + [byId[ids[i]]];
    }
    assert ids[..|ids|] == ids;
  }

  lemma {:induction false} UsesAreAnnounced(tools: ToolTable, events: seq<WireEvent>, id: string)
    requires id in Uses(tools, events)
    ensures id != "" && LatestUse(events, id).Some? && LatestUse(events, id).value.toolCallId == id
  {
    var n := |events| - 1;
    assert events == events[..n] + [events[n]];
    UsesExtends(tools, events[..n], events[n]);
    if !Announces(events[n], id) {
      UsesAreAnnounced(tools, events[..n], id);
    }
  }

  /** Every pending id resolves, in the same order. */
  lemma PendingResolves(tools: ToolTable, events: seq<WireEvent>)
    ensures
      var ids := Window(Waiting(tools, events));
      var calls := Gather((id: string) => Resolve(events, id), ids);
      |calls| == |ids| && forall i | 0 <= i < |ids| :: calls[i].toolCallId == ids[i]
  {
    var ids := Window(Waiting(tools, events));
    forall id | id in ids ensures id in Uses(tools, events) {
      assert id in Waiting(tools, events);
      WithoutMember(Uses(tools, events), Answered(events), id);
    }
    ResolvesEach(tools, events, ids);
  }

  lemma {:induction false} ResolvesEach(tools: ToolTable, events: seq<WireEvent>, ids: seq<string>)
    requires forall id | id in ids :: id in Uses(tools, events)
    ensures
      var calls := Gather((id: string) => Resolve(events, id), ids);
      |calls| == |ids| && forall i | 0 <= i < |ids| :: calls[i].toolCallId == ids[i]
  {
    if ids != [] {
      var n := |ids| - 1;
      ResolvesEach(tools, events, ids[..n]);
      UsesAreAnnounced(tools, events, ids[n]);
      GatherExtends((id: string) => Resolve(events, id), ids[..n], ids[n]);
      assert ids == ids[..n] + [ids[n]];
    }
  }

  // ---- draining -------------------------------------------------------------

  /** The client's results for a reported list of ids. */
  function Replies(ids: seq<string>, text: string -> string): seq<WireEvent> {
    seq(|ids|, i requires 0 <= i < |ids| => ToolResult(ids[i], text(ids[i])))
  }

  /** The log after k rounds of answering whatever window is reported. */
  function Rounds(tools: ToolTable, log: seq<WireEvent>, text: string -> string, k: nat): seq<WireEvent> {
    if k == 0 then log else AfterReplies(tools, Rounds(tools, log, text, k - 1), text)
  }

  /** The log once every reported call was answered. */
  function AfterReplies(tools: ToolTable, log: seq<WireEvent>, text: string -> string): seq<WireEvent> {
    log + Replies(Window(Waiting(tools, log)), text)
  }

  lemma {:induction false} RepliesAnswer(tools: ToolTable, ids: seq<string>, text: string -> string)
    requires "" !in ids
    ensures Uses(tools, Replies(ids, text)) == []
    ensures Answered(Replies(ids, text)) == set id | id in ids
  {
    if ids != [] {
      var n := |ids| - 1;
      RepliesAnswer(tools, ids[..n], text);
      assert Replies(ids, text) == Replies(ids[..n], text) + [ToolResult(ids[n], text(ids[n]))];
      UsesExtends(tools, Replies(ids[..n], text), ToolResult(ids[n], text(ids[n])));
      assert ids == ids[..n] + [ids[n]];
    }
  }

  lemma {:induction false} WithoutMore(ids: seq<string>, a: set<string>, b: set<string>)
    ensures Without(ids, a + b) == Without(Without(ids, a), b)
  {
    if ids != [] {
      var n := |ids| - 1;
      var init, last := ids[..n], ids[n];
      assert ids == init + [last];
      WithoutMore(init, a, b);
      WithoutExtends(init, last, a + b);
      WithoutExtends(init, last, a);
      if last in a {
        assert Without(init, a) + [] == Without(init, a);
        assert Without(init, a + b) + [] == Without(init, a + b);
      } else {
        WithoutExtends(Without(init, a), last, b);
      }
    }
  }

  lemma {:induction false} WithoutHead(ids: seq<string>, m: nat)
    requires NoDup(ids) && m <= |ids|
    ensures Without(ids, set id | id in ids[..m]) == ids[m..]
  {
    var gone := set id | id in ids[..m];
    WithoutHeadTo(ids, m, gone, |ids|);
    assert ids[..|ids|] == ids;
  }

  lemma {:induction false} WithoutHeadTo(ids: seq<string>, m: nat, gone: set<string>, n: nat)
    requires NoDup(ids) && m <= |ids| && n <= |ids| && gone == set id | id in ids[..m]
    ensures Without(ids[..n], gone) == if n <= m then [] else ids[m..n]
  {
    if n > 0 {
      WithoutHeadTo(ids, m, gone, n - 1);
      WithoutExtends(ids[..n - 1], ids[n - 1], gone);
      assert ids[..n] == ids[..n - 1] + [ids[n - 1]];
      assert n <= m ==> ids[n - 1] == ids[..m][n - 1];
    }
  }

  /** One round takes exactly the window off the front of the waiting list. */
  lemma RoundDrops(tools: ToolTable, log: seq<WireEvent>, text: string -> string)
    requires NoDup(Uses(tools, log))
    ensures
      var waiting := Waiting(tools, log);
      var after := log + Replies(Window(waiting), text);
      Uses(tools, after) == Uses(tools, log) && Waiting(tools, after) == waiting[|Window(waiting)|..]
  {
    var waiting := Waiting(tools, log);
    var window := Window(waiting);
    forall id | id in window ensures id != "" {
      assert id in waiting;
      WithoutMember(Uses(tools, log), Answered(log), id);
      UsesAreAnnounced(tools, log, id);
    }
    RepliesAnswer(tools, window, text);
    GatherAppend((e: WireEvent) => UseOf(tools, e), log, Replies(window, text));
    AnsweredAppend(log, Replies(window, text));
    assert Uses(tools, log) + [] == Uses(tools, log);
    WithoutMore(Uses(tools, log), Answered(log), set id | id in window);
    WithoutNoDup(Uses(tools, log), Answered(log));
    WithoutHead(waiting, |window|);
    assert window == waiting[..|window|];
  }

  function Least(a: int, b: int): int { if a < b then a else b }

  lemma WindowAfter(ids: seq<string>, a: nat)
    requires a <= |ids|
    ensures
      var b := Least(a + WINDOW, |ids|);
      Window(ids[a..]) == ids[a..b] && ids[a..][|Window(ids[a..])|..] == ids[b..]
  {
  }

  /** A log with these custom calls, of which `rest` are waiting. */
  ghost predicate Leaves(tools: ToolTable, log: seq<WireEvent>, uses: seq<string>, rest: seq<string>) {
    Uses(tools, log) == uses && Waiting(tools, log) == rest
  }

  /** After k rounds exactly the first 5k waiting ids are gone. */
  lemma {:induction false} Drains(tools: ToolTable, log: seq<WireEvent>, text: string -> string, k: nat)
    requires NoDup(Uses(tools, log))
    ensures
      var waiting := Waiting(tools, log);
      Leaves(tools, Rounds(tools, log, text, k), Uses(tools, log), waiting[Least(WINDOW * k, |waiting|)..])
  {
    DrainsFrom(tools, log, text, Uses(tools, log), Waiting(tools, log), k);
  }

  lemma {:induction false} DrainsFrom(tools: ToolTable, log: seq<WireEvent>, text: string -> string,
        uses: seq<string>, waiting: seq<string>, k: nat)
    requires NoDup(uses) && Leaves(tools, log, uses, waiting)
    ensures Leaves(tools, Rounds(tools, log, text, k), uses, waiting[Least(WINDOW * k, |waiting|)..])
  {
    if k == 0 {
      assert waiting[0..] == waiting;
    } else {
      DrainsFrom(tools, log, text, uses, waiting, k - 1);
      NextRound(tools, Rounds(tools, log, text, k - 1), text, uses, waiting, k - 1);
    }
  }

  lemma NextRound(tools: ToolTable, before: seq<WireEvent>, text: string -> string,
        uses: seq<string>, waiting: seq<string>, k: nat)
    requires NoDup(uses) && Leaves(tools, before, uses, waiting[Least(WINDOW * k, |waiting|)..])
    ensures Leaves(tools, AfterReplies(tools, before, text), uses, waiting[Least(WINDOW * (k + 1), |waiting|)..])
  {
    RoundDrops(tools, before, text);
    WindowAfter(waiting, Least(WINDOW * k, |waiting|));
  }

  lemma Reported(tools: ToolTable, log: seq<WireEvent>, text: string -> string, k: nat)
    requires NoDup(Uses(tools, log))
    ensures
      var waiting := Waiting(tools, log);
      Window(Waiting(tools, Rounds(tools, log, text, k)))
        == waiting[Least(WINDOW * k, |waiting|)..Least(WINDOW * (k + 1), |waiting|)]
  {
    Drains(tools, log, text, k);
    WindowAfter(Waiting(tools, log), Least(WINDOW * k, |Waiting(tools, log)|));
  }

  /** Answering the window over and over reaches end_turn after exactly the number
      of windows the waiting list fills, and reports no id twice. */
  lemma DrainsInWindows(tools: ToolTable, log: seq<WireEvent>, text: string -> string, k: nat)
    requires NoDup(Uses(tools, log))
    ensures
      var n := |Waiting(tools, log)|;
      Window(Waiting(tools, Rounds(tools, log, text, k))) == [] <==> (n + WINDOW - 1) / WINDOW <= k
    ensures forall j: nat, id | j < k && id in Window(Waiting(tools, Rounds(tools, log, text, j))) ::
      id !in Window(Waiting(tools, Rounds(tools, log, text, k)))
  {
    var waiting := Waiting(tools, log);
    Reported(tools, log, text, k);
    WithoutNoDup(Uses(tools, log), Answered(log));
    forall j: nat, id | j < k && id in Window(Waiting(tools, Rounds(tools, log, text, j)))
      ensures id !in Window(Waiting(tools, Rounds(tools, log, text, k)))
    {
      Reported(tools, log, text, j);
      Apart(waiting, Least(WINDOW * j, |waiting|), Least(WINDOW * (j + 1), |waiting|),
            Least(WINDOW * k, |waiting|), Least(WINDOW * (k + 1), |waiting|), id);
    }
  }

  lemma Apart(ids: seq<string>, a: nat, b: nat, c: nat, d: nat, id: string)
    requires NoDup(ids) && a <= b <= c <= d <= |ids| && id in ids[a..b]
    ensures id !in ids[c..d]
  {
  }
}
