/** Custom tool calls waiting for a client: the harness's list, the server's list,
    and the stop reason and tool calls the server builds from it. */
module CustomTools {
  import opened Folds
  import opened Text
  import opened Wire

  const WINDOW := 5

  /** The harness's table, in its three parts. */
  const HARNESS_TOOLS := ToolTable(
    { "bash", "read", "write", "edit", "glob", "grep", "web_fetch", "web_search",
      "schedule", "cancel_schedule", "list_schedules" }
    + { "browser", "ls", "find" }
    + { "team_create", "spawn_teammate", "send_team_message", "read_team_messages" },
    { "mcp__", "mcp_", "call_agent_" })

  /** The server's copy of it. */
  const SERVER_TOOLS := ToolTable(
    { "bash", "read", "write", "edit", "glob", "grep", "web_fetch", "web_search",
      "schedule", "cancel_schedule", "list_schedules", "browser", "ls", "find",
      "team_create", "spawn_teammate", "send_team_message", "read_team_messages" },
    { "mcp_", "mcp__", "call_agent_" })

  lemma TablesAgree(name: string)
    ensures HARNESS_TOOLS.Builtin(name) <==> SERVER_TOOLS.Builtin(name)
  {
    assert HARNESS_TOOLS.names == SERVER_TOOLS.names;
    assert HARNESS_TOOLS.prefixes == SERVER_TOOLS.prefixes;
  }

  /** What counts as built in: these eighteen names, and what comes from an MCP server or
      calls another agent. */
  lemma BuiltinNames(name: string)
    ensures HARNESS_TOOLS.Builtin(name) <==>
      || name in { "bash", "browser", "cancel_schedule", "edit", "find", "glob", "grep", "list_schedules", "ls",
                   "read", "read_team_messages", "schedule", "send_team_message", "spawn_teammate",
                   "team_create", "web_fetch", "web_search", "write" }
      || "mcp_" <= name || "call_agent_" <= name
    ensures SERVER_TOOLS.Builtin(name) <==> HARNESS_TOOLS.Builtin(name)
  {
    TablesAgree(name);
    if "mcp__" <= name {
      assert "mcp_" <= "mcp__";
    }
    if "mcp_" <= name {
      assert "mcp_" in HARNESS_TOOLS.prefixes && HasPrefix(name, "mcp_");
    }
    if "call_agent_" <= name {
      assert "call_agent_" in HARNESS_TOOLS.prefixes && HasPrefix(name, "call_agent_");
    }
  }

  /** The id of a call only a client can answer. */
  function UseOf(tools: ToolTable, e: WireEvent): seq<string> {
    if e.CustomToolUse? && e.id != "" then [e.id]
    else if e.ToolUse? && e.id != "" && !tools.Builtin(e.name) then [e.id]
    else []
  }

  function Uses(tools: ToolTable, events: seq<WireEvent>): seq<string> {
    Gather((e: WireEvent) => UseOf(tools, e), events)
  }

  function AnswerOf(e: WireEvent): set<string> {
    if e.ToolResult? && e.toolUseId != "" then {e.toolUseId} else {}
  }

  function Answered(events: seq<WireEvent>): set<string> {
    if events == [] then {}
    else Answered(events[..|events| - 1]) + AnswerOf(events[|events| - 1])
  }

  function Without(ids: seq<string>, gone: set<string>): seq<string> {
    Gather((id: string) => if id in gone then [] else [id], ids)
  }

  /** First occurrences, in order. */
  function Dedup(ids: seq<string>): (r: seq<string>)
    ensures NoDup(r) && forall x :: x in r <==> x in ids
  {
    if ids == [] then []
    else
      var before, last := Dedup(ids[..|ids| - 1]), ids[|ids| - 1];
      assert ids == ids[..|ids| - 1] + [last];
      if last in before then before else before + [last]
  }

  function Window(ids: seq<string>): seq<string> {
    if |ids| > WINDOW then ids[..WINDOW] else ids
  }

  /** Every unanswered call in the log, in order. */
  function Waiting(tools: ToolTable, events: seq<WireEvent>): seq<string> {
    Without(Uses(tools, events), Answered(events))
  }

  /** Some result in the log answers the call. */
  ghost predicate Replied(events: seq<WireEvent>, id: string) {
    exists i :: 0 <= i < |events| && events[i].ToolResult? && events[i].toolUseId == id
  }

  /** The calls in the log that are custom, or no built-in's, by their ids in order. */
  function Called(tools: ToolTable, events: seq<WireEvent>): seq<string> {
    if events == [] then []
    else
      var init, e := events[..|events| - 1], events[|events| - 1];
      Called(tools, init)
      + (match e
         case CustomToolUse(id, _, _) => if id == "" then [] else [id]
         case ToolUse(id, name, _) => if id == "" || tools.Builtin(name) then [] else [id]
         case _ => [])
  }

  ghost function Unreplied(events: seq<WireEvent>, ids: seq<string>): seq<string> {
    if ids == [] then []
    else
      var last := ids[|ids| - 1];
      Unreplied(events, ids[..|ids| - 1]) + if Replied(events, last) then [] else [last]
  }

  lemma {:induction false} CalledAre(tools: ToolTable, events: seq<WireEvent>)
    ensures Called(tools, events) == Uses(tools, events) && "" !in Called(tools, events)
  {
    if events != [] {
      CalledAre(tools, events[..|events| - 1]);
    }
  }

  lemma {:induction false} RepliedAre(events: seq<WireEvent>, id: string)
    requires id != ""
    ensures id in Answered(events) <==> Replied(events, id)
  {
    if events != [] {
      var n := |events| - 1;
      RepliedAre(events[..n], id);
      if Replied(events[..n], id) {
        var i :| 0 <= i < n && events[..n][i].ToolResult? && events[..n][i].toolUseId == id;
        assert events[i].ToolResult? && events[i].toolUseId == id;
      }
      if i :| 0 <= i < |events| && events[i].ToolResult? && events[i].toolUseId == id {
        assert i < n ==> events[..n][i] == events[i];
      }
    }
  }

  lemma {:induction false} UnrepliedAre(events: seq<WireEvent>, ids: seq<string>)
    requires "" !in ids
    ensures Without(ids, Answered(events)) == Unreplied(events, ids)
  {
    if ids != [] {
      var n := |ids| - 1;
      UnrepliedAre(events, ids[..n]);
      RepliedAre(events, ids[n]);
    }
  }

  /** Waiting are the calls that no result of the log answers, in order, and the first five
      of them are shown. */
  lemma WaitingTells(tools: ToolTable, events: seq<WireEvent>)
    ensures Waiting(tools, events) == Unreplied(events, Called(tools, events))
    ensures
      var waiting, shown := Waiting(tools, events), Window(Waiting(tools, events));
      shown <= waiting && |shown| == if |waiting| > 5 then 5 else |waiting|
  {
    CalledAre(tools, events);
    UnrepliedAre(events, Called(tools, events));
  }

  /** pending_custom_tool_ids in the harness. */
  method HarnessPending(tools: ToolTable, events: seq<WireEvent>) returns (pending: seq<string>)
    ensures pending == Window(Without(Dedup(Uses(tools, events)), Answered(events)))
  {
    var order: seq<string>, answered: set<string> := [], {};
    for i := 0 to |events|
      invariant order == Dedup(Uses(tools, events[..i]))
      invariant answered == Answered(events[..i])
    {
      var e := events[i];
      assert events[..i + 1] == events[..i] + [e];
      HarnessStep(tools, events[..i], e);
      if e.CustomToolUse? {
        if e.id != "" && e.id !in order {
          order := order + [e.id];
        }
      } else if e.ToolUse? {
        if tools.Builtin(e.name) {
          continue;
        }
        if e.id != "" && e.id !in order {
          order := order + [e.id];
        }
      } else if e.ToolResult? {
        if e.toolUseId != "" {
          answered := answered + {e.toolUseId};
        }
      }
    }
    assert events[..|events|] == events;
    var waiting := DropAnswered(order, answered);
    if |waiting| > WINDOW {
      return waiting[..WINDOW];
    }
    return waiting;
  }

  /** What one more event adds to both. */
  lemma HarnessStep(tools: ToolTable, events: seq<WireEvent>, e: WireEvent)
    ensures
      var order := Dedup(Uses(tools, events));
      Dedup(Uses(tools, events + [e])) ==
      if UseOf(tools, e) == [] || e.id in order then order else order + [e.id]
    ensures Answered(events + [e]) == Answered(events) + AnswerOf(e)
  {
    assert (events + [e])[..|events|] == events;
    UsesExtends(tools, events, e);
    if UseOf(tools, e) == [] {
      assert Uses(tools, events) + [] == Uses(tools, events);
    } else {
      DedupExtends(Uses(tools, events), e.id);
    }
  }

  method DropAnswered(ids: seq<string>, gone: set<string>) returns (kept: seq<string>)
    ensures kept == Without(ids, gone)
  {
    kept := [];
    for i := 0 to |ids|
      invariant kept == Without(ids[..i], gone)
    {
      assert ids[..i + 1][..i] == ids[..i];
      if ids[i] in gone {
        continue;
      }
      kept := kept + [ids[i]];
    }
    assert ids[..|ids|] == ids;
  }

  /** PendingCustomToolIDs in the server. */
  method ServerPending(tools: ToolTable, events: seq<WireEvent>) returns (pending: seq<string>)
    ensures pending == Window(Waiting(tools, events))
  {
    var order: seq<string>, answered: set<string> := [], {};
    for i := 0 to |events|
      invariant order == Uses(tools, events[..i]) && answered == Answered(events[..i])
    {
      var e := events[i];
      assert events[..i + 1] == events[..i] + [e];
      UsesExtends(tools, events[..i], e);
      if UseOf(tools, e) == [] {
        assert Uses(tools, events[..i]) + [] == Uses(tools, events[..i]);
      }
      if e.CustomToolUse? {
        if e.id != "" {
          order := order + [e.id];
        }
      } else if e.ToolUse? {
        if e.id != "" && !tools.Builtin(e.name) {
          order := order + [e.id];
        }
      } else if e.ToolResult? {
        if e.toolUseId != "" {
          answered := answered + {e.toolUseId};
        }
      }
    }
    assert events[..|events|] == events;
    pending := DropAnswered(order, answered);
    if |pending| > WINDOW {
      return pending[..WINDOW];
    }
  }

  lemma UsesExtends(tools: ToolTable, events: seq<WireEvent>, e: WireEvent)
    ensures Uses(tools, events + [e]) == Uses(tools, events) + UseOf(tools, e)
    ensures Answered(events + [e]) == Answered(events) + AnswerOf(e)
  {
    GatherExtends((x: WireEvent) => UseOf(tools, x), events, e);
    assert (events + [e])[..|events|] == events;
  }

  lemma {:induction false} AnsweredAppend(a: seq<WireEvent>, b: seq<WireEvent>)
    ensures Answered(a + b) == Answered(a) + Answered(b)
  {
    if b == [] {
      assert a + b == a;
    } else {
      assert (a + b)[..|a + b| - 1] == a + b[..|b| - 1];
      AnsweredAppend(a, b[..|b| - 1]);
    }
  }

  lemma DedupExtends(ids: seq<string>, id: string)
    ensures Dedup(ids + [id]) == if id in ids then Dedup(ids) else Dedup(ids) + [id]
  {
    assert (ids + [id])[..|ids|] == ids;
  }

  // ---- the two lists agree exactly when the window has no repeat -----------

  lemma {:induction false} DedupPrefix(a: seq<string>, b: seq<string>)
    requires a <= b
    ensures Dedup(a) <= Dedup(b)
  {
    if a != b {
      DedupPrefix(a, b[..|b| - 1]);
    }
  }

  lemma {:induction false} DedupFixed(ids: seq<string>)
    requires NoDup(ids)
    ensures Dedup(ids) == ids
  {
    if ids != [] {
      var n := |ids| - 1;
      DedupFixed(ids[..n]);
      assert ids == ids[..n] + [ids[n]];
    }
  }

  lemma WithoutExtends(ids: seq<string>, id: string, gone: set<string>)
    ensures Without(ids + [id], gone) == Without(ids, gone) + if id in gone then [] else [id]
  {
    GatherExtends((x: string) => if x in gone then [] else [x], ids, id);
  }

  lemma {:induction false} WithoutMember(ids: seq<string>, gone: set<string>, id: string)
    ensures id in Without(ids, gone) <==> id in ids && id !in gone
  {
    if ids != [] {
      var n := |ids| - 1;
      WithoutMember(ids[..n], gone, id);
      WithoutExtends(ids[..n], ids[n], gone);
      assert ids == ids[..n] + [ids[n]];
    }
  }

  lemma {:induction false} WithoutDedup(ids: seq<string>, gone: set<string>)
    ensures Without(Dedup(ids), gone) == Dedup(Without(ids, gone))
  {
    if ids != [] {
      var n := |ids| - 1;
      var init, last := ids[..n], ids[n];
      assert ids == init + [last];
      WithoutDedup(init, gone);
      WithoutExtends(init, last, gone);
      WithoutExtends(Dedup(init), last, gone);
      DedupExtends(init, last);
      WithoutMember(init, gone, last);
      if last in gone {
        assert Without(init, gone) + [] == Without(init, gone);
        assert Without(Dedup(init), gone) + [] == Without(Dedup(init), gone);
      } else {
        DedupExtends(Without(init, gone), last);
      }
    }
  }

  lemma WindowOfDedup(ids: seq<string>)
    ensures Window(Dedup(ids)) == Window(ids) <==> NoDup(Window(ids))
  {
    var w := Window(ids);
    if NoDup(w) {
      DedupFixed(w);
      DedupPrefix(w, ids);
    }
  }

  /** Among the first five unanswered calls of the log no id is used twice: two calls
      with one id do not both stand there. */
  ghost predicate FirstDistinct(ids: seq<string>, gone: set<string>) {
    forall i, j | 0 <= i < j < |ids| && ids[j] !in gone && |Without(ids[..j], gone)| < WINDOW :: ids[i] != ids[j]
  }

  lemma {:induction false} WindowDistinct(ids: seq<string>, gone: set<string>)
    ensures NoDup(Window(Without(ids, gone))) <==> FirstDistinct(ids, gone)
  {
    if ids != [] {
      var n := |ids| - 1;
      var init, last := ids[..n], ids[n];
      assert ids == init + [last];
      WindowDistinct(init, gone);
      WithoutExtends(init, last, gone);
      WithoutMember(init, gone, last);
      FirstMore(init, last, gone);
      if last in gone {
        assert Without(init, gone) + [] == Without(init, gone);
      } else {
        OneMoreInWindow(Without(init, gone), last);
      }
    }
  }

  lemma FirstMore(ids: seq<string>, id: string, gone: set<string>)
    ensures FirstDistinct(ids + [id], gone) <==>
      FirstDistinct(ids, gone) && (id !in gone && |Without(ids, gone)| < WINDOW ==> id !in ids)
  {
    var more := ids + [id];
    assert more[..|ids|] == ids && more[|ids|] == id;
    forall j: nat | j < |ids| ensures more[..j] == ids[..j] && more[j] == ids[j] { }
  }

  lemma OneMoreInWindow(ids: seq<string>, id: string)
    ensures NoDup(Window(ids + [id])) <==> NoDup(Window(ids)) && (|ids| < WINDOW ==> id !in ids)
  {
    if |ids| < WINDOW {
      assert Window(ids + [id]) == ids + [id] && (ids + [id])[|ids|] == id;
    } else {
      assert (ids + [id])[..WINDOW] == ids[..WINDOW];
    }
  }

  /** Harness and server report the same list exactly when the log's first five
      unanswered calls carry distinct ids; in particular when all its call ids are. */
  lemma ListsAgree(tools: ToolTable, events: seq<WireEvent>)
    ensures
      var harness := Window(Without(Dedup(Uses(tools, events)), Answered(events)));
      var server := Window(Waiting(tools, events));
      && (harness == server <==> FirstDistinct(Uses(tools, events), Answered(events)))
      && (NoDup(Uses(tools, events)) ==> harness == server)
  {
    WithoutDedup(Uses(tools, events), Answered(events));
    WindowOfDedup(Waiting(tools, events));
    WindowDistinct(Uses(tools, events), Answered(events));
  }

  lemma {:induction false} WithoutNoDup(ids: seq<string>, gone: set<string>)
    requires NoDup(ids)
    ensures NoDup(Without(ids, gone))
  {
    if ids != [] {
      var n := |ids| - 1;
      WithoutNoDup(ids[..n], gone);
      WithoutExtends(ids[..n], ids[n], gone);
      WithoutMember(ids[..n], gone, ids[n]);
      assert ids == ids[..n] + [ids[n]];
    }
  }
}
