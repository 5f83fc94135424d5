/** The prompt of a stateless turn, projected from the events of one thread. */
module Projection {
  import opened Folds
  import opened Text

  const PRIMARY := "sthr_primary"

  /** Event types, by what the projection does with them. */
  datatype Kind =
    | UserMessage | AgentMessage | ToolUse | ToolResult | CustomToolUse | CustomToolResult
    | UserCustomToolResult | Compacted | SessionFrame | OtherKind

  datatype Block = Block(isText: bool, text: string)

  /** `thread` is session_thread_id, "" when absent; `summary` is [] unless a list. */
  datatype Event = Event(
    kind: Kind, thread: string, content: seq<Block>, summary: seq<Block>,
    name: string, input: Option<string>, toolUseId: string)

  // ---- text ----------------------------------------------------------------------

  function BlockText(b: Block): seq<string> { if b.isText && b.text != "" then [b.text] else [] }

  function Texts(blocks: seq<Block>): seq<string> { Gather(BlockText, blocks) }

  function Join(parts: seq<string>, sep: string): string {
    if parts == [] then ""
    else if |parts| == 1 then parts[0]
    else Join(parts[..|parts| - 1], sep) + sep + parts[|parts| - 1]
  }

  function EventText(e: Event): string {
    Join(Texts(e.content)
         + (if e.kind.ToolUse? || e.kind.CustomToolUse?
            then (if e.name != "" then [e.name] else []) + (if e.input.Some? then [e.input.value] else [])
            else [])
         + (if e.kind.ToolResult? && e.toolUseId != "" then [e.toolUseId] else []), "\n")
  }

  predicate InModelContext(e: Event) {
    e.kind.UserMessage? || e.kind.AgentMessage? || e.kind.ToolUse? || e.kind.ToolResult?
    || e.kind.CustomToolUse? || e.kind.CustomToolResult?
  }

  function Role(e: Event): string { if e.kind.UserMessage? then "USER: " else "ASSISTANT: " }

  function Line(e: Event): seq<string> {
    if InModelContext(e) && EventText(e) != "" then [Role(e) + EventText(e)] else []
  }

  function Conversation(events: seq<Event>): string { Join(Gather(Line, events), "\n") }

  // ---- threads -------------------------------------------------------------------

  function EventThread(e: Event): string {
    if PyStrip(e.thread) != "" then PyStrip(e.thread) else PRIMARY
  }

  /** None or an empty id means the primary thread. */
  function Wanted(sid: string): string { if sid == "" then PRIMARY else sid }

  function Mine(sid: string): Event -> seq<Event> {
    (e: Event) => if EventThread(e) == Wanted(sid) then [e] else []
  }

  function Scoped(events: seq<Event>, sid: string): seq<Event> { Gather(Mine(sid), events) }

  // ---- the prompt ----------------------------------------------------------------

  predicate Asks(e: Event) { e.kind.UserMessage? && Texts(e.content) != [] }

  predicate Bounds(e: Event) { e.kind.Compacted? && e.summary != [] }

  /** Index of the last event of a kind, -1 when there is none. */
  function LastIndex(events: seq<Event>, p: Event -> bool): (i: int)
    ensures -1 <= i < |events|
  {
    if events == [] then -1
    else if p(events[|events| - 1]) then |events| - 1
    else LastIndex(events[..|events| - 1], p)
  }

  lemma {:induction false} LastIndexIs(events: seq<Event>, p: Event -> bool)
    ensures
      var i := LastIndex(events, p);
      && (i >= 0 ==> p(events[i]))
      && forall j | i < j < |events| :: !p(events[j])
  {
    if events != [] && !p(events[|events| - 1]) {
      LastIndexIs(events[..|events| - 1], p);
    }
  }

  function SummaryText(e: Event): string { PyStrip(Join(Texts(e.summary), "\n")) }

  function LatestBoundary(before: seq<Event>): Option<Event> {
    var b := LastIndex(before, Bounds);
    if b < 0 then None else Some(before[b])
  }

  function BoundaryText(b: Option<Event>): string { if b.None? then "" else SummaryText(b.value) }

  /** The summary of the latest boundary, "" when there is none or it is blank. */
  function Summary(before: seq<Event>): string { BoundaryText(LatestBoundary(before)) }

  /** The events before the user's turn that the prompt still shows. */
  function History(before: seq<Event>): seq<Event> {
    if Summary(before) == "" then before else before[LastIndex(before, Bounds) + 1..]
  }

  predicate Continues(e: Event) {
    !e.kind.SessionFrame? && !e.kind.UserCustomToolResult? && InModelContext(e)
  }

  function Kept(e: Event): seq<Event> { if Continues(e) then [e] else [] }

  /** The sections of a prompt, in the order they appear. */
  datatype Part = SummaryPart(text: string) | HistoryPart(text: string) | UserPart(text: string)

  function PartText(p: Part): seq<string> {
    match p
    case SummaryPart(text) => ["<conversation-summary>\n" + text + "\n</conversation-summary>"]
    case HistoryPart(text) => ["<conversation-history>\n" + text + "\n</conversation-history>"]
    case UserPart(text) => [text]
  }

  function Render(parts: seq<Part>): string { Join(Gather(PartText, parts), "\n\n") }

  function Compose(summary: string, history: string, text: string): seq<Part> {
    (if summary == "" then [] else [SummaryPart(summary)])
    + (if history == "" then [] else [HistoryPart(history)])
    + [UserPart(text)]
  }

  function UserText(e: Event): string { Join(Texts(e.content), "\n") }

  /** What precedes the user's turn, the turn, and what already followed it. */
  datatype Turn = NoTurn | Turn(before: seq<Event>, user: Event, after: seq<Event>)

  function LastTurn(scoped: seq<Event>): Turn {
    var u := LastIndex(scoped, Asks);
    if u < 0 then NoTurn else Turn(scoped[..u], scoped[u], scoped[u + 1..])
  }

  function Parts(turn: Turn): seq<Part> {
    if turn.NoTurn? then []
    else
      Compose(Summary(turn.before), Conversation(History(turn.before) + Gather(Kept, turn.after)), UserText(turn.user))
  }

  function Prompt(scoped: seq<Event>): string { Render(Parts(LastTurn(scoped))) }

  // ---- the loops that compute it ---------------------------------------------------

  lemma ScopedTwice(events: seq<Event>, sid: string)
    ensures Scoped(Scoped(events, sid), sid) == Scoped(events, sid)
  {
    AllMine(events, sid);
    NothingFiltered(Scoped(events, sid), sid);
  }

  lemma {:induction false} AllMine(events: seq<Event>, sid: string)
    ensures forall e | e in Scoped(events, sid) :: EventThread(e) == Wanted(sid)
  {
    if events != [] {
      AllMine(events[..|events| - 1], sid);
    }
  }

  lemma {:induction false} NothingFiltered(events: seq<Event>, sid: string)
    requires forall e | e in events :: EventThread(e) == Wanted(sid)
    ensures Scoped(events, sid) == events
  {
    if events != [] {
      NothingFiltered(events[..|events| - 1], sid);
    }
  }

  method CollectTexts(blocks: seq<Block>) returns (parts: seq<string>)
    ensures parts == Texts(blocks)
  {
    parts := [];
    for i := 0 to |blocks|
      invariant parts == Texts(blocks[..i])
    {
      assert blocks[..i + 1][..i] == blocks[..i];
      if blocks[i].isText && blocks[i].text != "" {
        parts := parts + [blocks[i].text];
      }
    }
    assert blocks[..|blocks|] == blocks;
  }

  method LatestUserText(events: seq<Event>, sid: string) returns (text: string)
    ensures
      var scoped := Scoped(events, sid); var u := LastIndex(scoped, Asks);
      text == if u < 0 then "" else UserText(scoped[u])
  {
    var scoped := Scoped(events, sid);
    var i := |scoped|;
    assert scoped[..i] == scoped;
    while i > 0
      invariant 0 <= i <= |scoped| && LastIndex(scoped[..i], Asks) == LastIndex(scoped, Asks)
    {
      i := i - 1;
      assert scoped[..i + 1][..i] == scoped[..i];
      if scoped[i].kind.UserMessage? {
        var parts := CollectTexts(scoped[i].content);
        if parts != [] {
          return Join(parts, "\n");
        }
      }
    }
    return "";
  }

  method LastUserMessageIndex(events: seq<Event>) returns (u: int)
    ensures u == LastIndex(events, Asks)
  {
    u := |events|;
    assert events[..u] == events;
    while u > 0
      invariant 0 <= u <= |events| && LastIndex(events[..u], Asks) == LastIndex(events, Asks)
    {
      u := u - 1;
      assert events[..u + 1][..u] == events[..u];
      if events[u].kind.UserMessage? && Texts(events[u].content) != [] {
        return;
      }
    }
    return -1;
  }

  method LatestCompactionBoundary(events: seq<Event>) returns (b: int)
    ensures b == LastIndex(events, Bounds)
  {
    b := -1;
    for i := 0 to |events|
      invariant b == LastIndex(events[..i], Bounds)
    {
      assert events[..i + 1][..i] == events[..i];
      if !events[i].kind.Compacted? {
        continue;
      }
      if events[i].summary != [] {
        b := i;
      }
    }
    assert events[..|events|] == events;
  }

  method HistorySlice(events: seq<Event>, end: int) returns (history: seq<Event>)
    requires end <= |events|
    ensures history == if end <= 0 then [] else History(events[..end])
  {
    if end <= 0 {
      return [];
    }
    var b := LatestCompactionBoundary(events[..end]);
    if b < 0 {
      return events[..end];
    }
    if SummaryText(events[b]) == "" {
      return events[..end];
    }
    return events[b + 1..end];
  }

  method ContinuationEventsAfterUser(events: seq<Event>, u: int) returns (tail: seq<Event>)
    requires 0 <= u < |events|
    ensures tail == Gather(Kept, events[u + 1..])
  {
    tail := [];
    if u >= |events| - 1 {
      return;
    }
    var after := events[u + 1..];
    for i := 0 to |after|
      invariant tail == Gather(Kept, after[..i])
    {
      assert after[..i + 1][..i] == after[..i];
      if !after[i].kind.SessionFrame? && !after[i].kind.UserCustomToolResult? && InModelContext(after[i]) {
        tail := tail + [after[i]];
      }
    }
    assert after[..|after|] == after;
  }

  method EventsToConversationText(events: seq<Event>) returns (text: string)
    ensures text == Conversation(events)
  {
    var lines: seq<string> := [];
    for i := 0 to |events|
      invariant lines == Gather(Line, events[..i])
    {
      assert events[..i + 1][..i] == events[..i];
      if !InModelContext(events[i]) || EventText(events[i]) == "" {
        continue;
      }
      lines := lines + [Role(events[i]) + EventText(events[i])];
    }
    assert events[..|events|] == events;
    return Join(lines, "\n");
  }

  lemma {:induction false} JoinNonEmpty(parts: seq<string>, sep: string)
    requires parts != [] && forall p | p in parts :: p != ""
    ensures Join(parts, sep) != ""
  {
    assert parts[|parts| - 1] in parts;
  }

  lemma {:induction false} TextsNonEmpty(blocks: seq<Block>)
    ensures "" !in Texts(blocks)
  {
    if blocks != [] {
      TextsNonEmpty(blocks[..|blocks| - 1]);
    }
  }

  lemma UserTextNonEmpty(e: Event)
    requires Asks(e)
    ensures UserText(e) != ""
  {
    TextsNonEmpty(e.content);
    JoinNonEmpty(Texts(e.content), "\n");
  }

  lemma RenderUser(text: string)
    ensures Render([UserPart(text)]) == text
  {
    GatherOne(PartText, UserPart(text));
  }

  lemma TurnFound(scoped: seq<Event>)
    ensures
      var u := LastIndex(scoped, Asks);
      if u < 0 then LastTurn(scoped).NoTurn?
      else LastTurn(scoped) == Turn(scoped[..u], scoped[u], scoped[u + 1..]) && UserText(scoped[u]) != ""
  {
    LastIndexIs(scoped, Asks);
    if LastIndex(scoped, Asks) >= 0 {
      UserTextNonEmpty(scoped[LastIndex(scoped, Asks)]);
    }
  }

  /** project_oma_events. */
  method ProjectOmaEvents(events: seq<Event>, sid: string) returns (prompt: string)
    ensures prompt == Prompt(Scoped(events, sid))
  {
    var scoped := Scoped(events, sid);
    ScopedTwice(events, sid);
    TurnFound(scoped);
    var userText := LatestUserText(scoped, sid);
    if userText == "" {
      return "";
    }
    var u := LastUserMessageIndex(scoped);
    if u < 0 {
      return userText;
    }
    var parts := BuildParts(scoped, u, userText);
    prompt := RenderParts(parts, userText);
  }

  method RenderParts(parts: seq<Part>, userText: string) returns (prompt: string)
    requires |parts| == 1 ==> parts == [UserPart(userText)]
    ensures prompt == Render(parts)
  {
    if |parts| == 1 {
      RenderUser(userText);
      return userText;
    }
    return Render(parts);
  }

  method BuildParts(scoped: seq<Event>, u: nat, userText: string) returns (parts: seq<Part>)
    requires u < |scoped| && userText == UserText(scoped[u])
    ensures parts == Parts(Turn(scoped[..u], scoped[u], scoped[u + 1..]))
    ensures |parts| == 1 ==> parts == [UserPart(userText)]
  {
    var before, after := scoped[..u], scoped[u + 1..];
    var history := HistorySlice(scoped, u);
    assert u == 0 ==> before == [];
    var tail := ContinuationEventsAfterUser(scoped, u);
    var summary := LatestSummary(before);
    var text := EventsToConversationText(history + tail);
    parts := ListParts(summary, text, userText);
    PartsAre(before, scoped[u], after, history, tail);
  }

  method LatestSummary(before: seq<Event>) returns (summary: string)
    ensures summary == Summary(before)
  {
    var b := LatestCompactionBoundary(before);
    return if b >= 0 then SummaryText(before[b]) else "";
  }

  lemma PartsAre(before: seq<Event>, user: Event, after: seq<Event>, history: seq<Event>, tail: seq<Event>)
    requires history == History(before) && tail == Gather(Kept, after)
    ensures Parts(Turn(before, user, after)) == Compose(Summary(before), Conversation(history + tail), UserText(user))
  {
  }

  method ListParts(summary: string, text: string, userText: string) returns (parts: seq<Part>)
    ensures parts == Compose(summary, text, userText)
    ensures |parts| == 1 ==> parts == [UserPart(userText)]
  {
    parts := [];
    if summary != "" {
      parts := parts + [SummaryPart(summary)];
    }
    if text != "" {
      parts := parts + [HistoryPart(text)];
    }
    parts := parts + [UserPart(userText)];
  }

  // ---- thread isolation ---------------------------------------------------------------

  /** Events of other threads can stand anywhere in the log without a trace. */
  lemma OtherThreadsInvisible(before: seq<Event>, others: seq<Event>, rest: seq<Event>, sid: string)
    requires forall e | e in others :: EventThread(e) != Wanted(sid)
    ensures Prompt(Scoped(before + others + rest, sid)) == Prompt(Scoped(before + rest, sid))
  {
    GatherAppend(Mine(sid), before + others, rest);
    GatherAppend(Mine(sid), before, others);
    GatherAppend(Mine(sid), before, rest);
    NoneMine(others, sid);
    assert Scoped(before, sid) + [] == Scoped(before, sid);
  }

  lemma {:induction false} NoneMine(others: seq<Event>, sid: string)
    requires forall e | e in others :: EventThread(e) != Wanted(sid)
    ensures Scoped(others, sid) == []
  {
    if others != [] {
      NoneMine(others[..|others| - 1], sid);
    }
  }

  // ---- compaction ----------------------------------------------------------------------

  /** The thread's latest boundary before its last user message has a summary. */
  ghost predicate Sealed(s: seq<Event>) {
    LastTurn(s).Turn? && Summary(LastTurn(s).before) != ""
  }

  lemma {:induction false} LastIndexAppend(a: seq<Event>, s: seq<Event>, p: Event -> bool)
    ensures LastIndex(a + s, p) == if LastIndex(s, p) >= 0 then |a| + LastIndex(s, p) else LastIndex(a, p)
  {
    if s == [] {
      assert a + s == a;
    } else {
      assert (a + s)[..|a + s| - 1] == a + s[..|s| - 1];
      LastIndexAppend(a, s[..|s| - 1], p);
    }
  }

  lemma TurnAppend(a: seq<Event>, s: seq<Event>)
    requires LastTurn(s).Turn?
    ensures LastTurn(a + s) == LastTurn(s).(before := a + LastTurn(s).before)
  {
    var u := LastIndex(s, Asks);
    LastIndexAppend(a, s, Asks);
    assert (a + s)[..|a| + u] == a + s[..u] && (a + s)[|a| + u + 1..] == s[u + 1..];
  }

  lemma BoundaryAppend(a: seq<Event>, before: seq<Event>)
    ensures LatestBoundary(a + before)
         == if LatestBoundary(before).Some? then LatestBoundary(before) else LatestBoundary(a)
  {
    LastIndexAppend(a, before, Bounds);
  }

  lemma SummaryAppend(a: seq<Event>, before: seq<Event>)
    ensures Summary(before) != "" ==> Summary(a + before) == Summary(before)
    ensures LatestBoundary(a).None? ==> Summary(a + before) == Summary(before)
  {
    BoundaryAppend(a, before);
    if LatestBoundary(before).Some? {
      assert LatestBoundary(a + before) == LatestBoundary(before);
    } else if LatestBoundary(a).None? {
      assert LatestBoundary(a + before) == LatestBoundary(before);
    }
  }

  lemma HistoryAppend(a: seq<Event>, before: seq<Event>)
    ensures Summary(before) != "" ==> History(a + before) == History(before)
    ensures Summary(a + before) == "" ==> History(a + before) == a + before
    ensures Summary(before) == "" ==> History(before) == before
  {
    SummaryAppend(a, before);
    if Summary(before) != "" {
      LastIndexAppend(a, before, Bounds);
      var b := LastIndex(before, Bounds);
      assert (a + before)[|a| + b + 1..] == before[b + 1..];
    }
  }

  lemma SealedForgets(a: seq<Event>, s: seq<Event>)
    requires Sealed(s)
    ensures Parts(LastTurn(a + s)) == Parts(LastTurn(s))
  {
    TurnAppend(a, s);
    SummaryAppend(a, LastTurn(s).before);
    HistoryAppend(a, LastTurn(s).before);
  }

  lemma {:induction false} JoinCons(first: string, rest: seq<string>, sep: string)
    requires rest != []
    ensures Join([first] + rest, sep) == first + sep + Join(rest, sep)
  {
    var n := |rest| - 1;
    assert ([first] + rest)[..|rest|] == [first] + rest[..n];
    if n > 0 {
      JoinCons(first, rest[..n], sep);
      assert first + sep + (Join(rest[..n], sep) + sep + rest[n]) == first + sep + Join(rest[..n], sep) + sep + rest[n];
    } else {
      assert [first] + rest[..n] == [first];
    }
  }

  /** One more line makes the conversation longer. */
  lemma LongerConversation(e: Event, history: seq<Event>)
    requires Line(e) != []
    ensures |Conversation([e] + history)| > |Conversation(history)|
  {
    GatherAppend(Line, [e], history);
    GatherOne(Line, e);
    var rest := Gather(Line, history);
    if rest == [] {
      assert Line(e) + rest == Line(e);
    } else {
      JoinCons(Line(e)[0], rest, "\n");
    }
  }

  /** An agent's and a user's message in a thread. */
  function Spoken(thread: string): Event { Event(AgentMessage, thread, [Block(true, "x")], [], "", None, "") }

  function Asked(thread: string): Event { Event(UserMessage, thread, [Block(true, "x")], [], "", None, "") }

  lemma SamplesSpeak(thread: string)
    ensures Line(Spoken(thread)) != [] && Asks(Asked(thread)) && UserText(Asked(thread)) == "x"
  {
    GatherOne(BlockText, Block(true, "x"));
    var texts := Texts(Spoken(thread).content);
    assert texts == ["x"] && texts + [] + [] == ["x"];
    assert EventText(Spoken(thread)) == "x";
  }

  lemma RenderTwo(first: Part, second: Part)
    ensures Render([first, second]) == PartText(first)[0] + "\n\n" + PartText(second)[0]
  {
    assert [first] + [second] == [first, second];
    GatherExtends(PartText, [first], second);
    GatherOne(PartText, first);
    var x, y := PartText(first)[0], PartText(second)[0];
    assert PartText(first) == [x] && PartText(second) == [y];
    assert [x] + [y] == [x, y] && [x, y][..1] == [x];
    assert Gather(PartText, [first, second]) == [x, y];
    assert Join([x], "\n\n") == x;
  }

  lemma RenderHistory(history: string, text: string)
    ensures Render(Compose("", history, text))
         == if history == "" then text
            else "<conversation-history>\n" + history + "\n</conversation-history>" + "\n\n" + text
  {
    if history == "" {
      assert Compose("", history, text) == [UserPart(text)];
      RenderUser(text);
    } else {
      assert Compose("", history, text) == [HistoryPart(history), UserPart(text)];
      RenderTwo(HistoryPart(history), UserPart(text));
    }
  }

  lemma LongerPrompt(longer: string, shorter: string, text: string)
    requires |longer| > |shorter|
    ensures |Render(Compose("", longer, text))| > |Render(Compose("", shorter, text))|
  {
    RenderHistory(longer, text);
    RenderHistory(shorter, text);
  }

  /** An earlier message shows in the prompt of a thread that is not sealed. */
  lemma EarlierMessageShows(e: Event, s: seq<Event>)
    requires LastTurn(s).Turn? && !Sealed(s) && Line(e) != []
    ensures Prompt([e] + s) != Prompt(s)
  {
    var turn := LastTurn(s);
    TurnAppend([e], s);
    EarlierMessageIn(e, turn.before, turn.user, turn.after);
  }

  lemma SingleIndex(e: Event, p: Event -> bool)
    ensures LastIndex([e], p) == if p(e) then 0 else -1
  {
    assert [e][..0] == [];
  }

  /** A message before a history without summary belongs to it. */
  lemma MessageBefore(e: Event, before: seq<Event>)
    requires Summary(before) == "" && Line(e) != []
    ensures Summary([e] + before) == "" && History([e] + before) == [e] + before && History(before) == before
  {
    SingleIndex(e, Bounds);
    SummaryAppend([e], before);
    HistoryAppend([e], before);
  }

  lemma EarlierMessageIn(e: Event, before: seq<Event>, user: Event, after: seq<Event>)
    requires Summary(before) == "" && Line(e) != []
    ensures Render(Parts(Turn([e] + before, user, after))) != Render(Parts(Turn(before, user, after)))
  {
    var tail := Gather(Kept, after);
    MessageBefore(e, before);
    PartsAre(before, user, after, before, tail);
    PartsAre([e] + before, user, after, [e] + before, tail);
    LongerHistory(e, before, tail, UserText(user));
  }

  lemma LongerHistory(e: Event, before: seq<Event>, tail: seq<Event>, text: string)
    requires Line(e) != []
    ensures |Render(Compose("", Conversation([e] + before + tail), text))|
          > |Render(Compose("", Conversation(before + tail), text))|
  {
    assert [e] + before + tail == [e] + (before + tail);
    LongerConversation(e, before + tail);
    LongerPrompt(Conversation([e] + (before + tail)), Conversation(before + tail), text);
  }

  lemma AskedFirst(user: Event, s: seq<Event>)
    requires LastTurn(s).NoTurn? && Asks(user)
    ensures LastTurn([user] + s) == Turn([], user, s)
  {
    SingleIndex(user, Asks);
    LastIndexAppend([user], s, Asks);
    assert ([user] + s)[1..] == s;
  }

  lemma AskedAlone(thread: string, s: seq<Event>)
    requires LastTurn(s).NoTurn?
    ensures Prompt([Asked(thread)] + s) != Prompt(s)
  {
    SamplesSpeak(thread);
    AskedFirst(Asked(thread), s);
    RenderHistory(Conversation([] + Gather(Kept, s)), "x");
  }

  /** An earlier event of that thread that shows in the prompt, unless it is sealed. */
  lemma SomethingShows(thread: string, s: seq<Event>) returns (e: Event)
    requires !Sealed(s)
    ensures e.thread == thread && Prompt([e] + s) != Prompt(s)
  {
    SamplesSpeak(thread);
    if LastTurn(s).Turn? {
      e := Spoken(thread);
      EarlierMessageShows(e, s);
    } else {
      e := Asked(thread);
      AskedAlone(thread, s);
    }
  }

  /** A prompt is independent of everything before `s` exactly when `s` is sealed: its
      latest boundary before its last user message has a summary that is not blank. */
  lemma CompactionForgets(s: seq<Event>)
    ensures Sealed(s) <==> forall a :: Prompt(a + s) == Prompt(s)
  {
    if Sealed(s) {
      forall a ensures Prompt(a + s) == Prompt(s) { SealedForgets(a, s); }
    } else {
      var e := SomethingShows("", s);
    }
  }

  /** A thread id that events can carry: stripping leaves it alone. */
  predicate Carried(sid: string) { PyStrip(Wanted(sid)) == Wanted(sid) }

  lemma ThreadCarried(e: Event)
    ensures PyStrip(EventThread(e)) == EventThread(e)
  {
    PyStripFixed(e.thread);
    TightStays(PRIMARY);
  }

  lemma TightStays(name: string)
    requires name != "" && !PySpace(name[0]) && !PySpace(name[|name| - 1])
    ensures PyStrip(name) == name
  {
    TrimTight(name, PySpace);
  }

  lemma {:induction false} NoneCarried(events: seq<Event>, sid: string)
    requires !Carried(sid)
    ensures Scoped(events, sid) == []
  {
    if events != [] {
      NoneCarried(events[..|events| - 1], sid);
      ThreadCarried(events[|events| - 1]);
    }
  }

  /** The same for the whole log, other threads included: what came before `rest` leaves
      no trace in a thread's prompt exactly when the thread is sealed in `rest`, or its
      id has surrounding space, which no event's has. */
  lemma LogForgets(rest: seq<Event>, sid: string)
    ensures Sealed(Scoped(rest, sid)) || !Carried(sid) <==>
      forall a :: Prompt(Scoped(a + rest, sid)) == Prompt(Scoped(rest, sid))
  {
    var s := Scoped(rest, sid);
    if Sealed(s) {
      forall a ensures Prompt(Scoped(a + rest, sid)) == Prompt(s) {
        GatherAppend(Mine(sid), a, rest);
        SealedForgets(Scoped(a, sid), s);
      }
    } else if !Carried(sid) {
      forall a ensures Prompt(Scoped(a + rest, sid)) == Prompt(s) {
        NoneCarried(a + rest, sid);
        NoneCarried(rest, sid);
      }
    } else {
      var e := SomethingShows(Wanted(sid), s);
      GatherAppend(Mine(sid), [e], rest);
      GatherOne(Mine(sid), e);
      assert EventThread(e) == Wanted(sid);
      assert Prompt(Scoped([e] + rest, sid)) != Prompt(s);
    }
  }

  /** A later boundary with a blank summary undoes an earlier compaction. */
  lemma BlankBoundaryReopens(s: seq<Event>, blank: Event, user: Event)
    requires Bounds(blank) && SummaryText(blank) == "" && Asks(user)
    ensures !Sealed(s + [blank, user])
    ensures Prompt([Spoken("")] + (s + [blank, user])) != Prompt(s + [blank, user])
  {
    UserLast(s, blank, user);
    assert (s + [blank])[|s|] == blank;
    SamplesSpeak("");
    EarlierMessageShows(Spoken(""), s + [blank, user]);
  }

  lemma UserLast(s: seq<Event>, e: Event, user: Event)
    requires Asks(user)
    ensures LastTurn(s + [e, user]) == Turn(s + [e], user, [])
  {
    var all := s + [e, user];
    assert all[..|s| + 1] == s + [e] && all[|s| + 2..] == [];
  }

  lemma SameWithBoundary(turn: Turn, boundary: Event)
    requires turn.Turn? && Bounds(boundary)
    ensures Parts(turn.(after := turn.after + [boundary])) == Parts(turn)
  {
    BoundaryNotKept(turn.after, boundary);
  }

  lemma BoundaryNotKept(after: seq<Event>, boundary: Event)
    requires Bounds(boundary)
    ensures Gather(Kept, after + [boundary]) == Gather(Kept, after)
  {
    GatherSilent(Kept, after, boundary);
  }

  lemma TurnGoesOn(s: seq<Event>, e: Event)
    requires !e.kind.UserMessage?
    ensures LastTurn(s + [e]) == if LastTurn(s).NoTurn? then NoTurn else LastTurn(s).(after := LastTurn(s).after + [e])
  {
    var all, u := s + [e], LastIndex(s, Asks);
    assert all[..|s|] == s;
    if u >= 0 {
      assert all[..u] == s[..u] && all[u + 1..] == s[u + 1..] + [e];
    }
  }

  /** A boundary appended during a turn changes nothing for that turn. */
  lemma BoundaryWaits(s: seq<Event>, boundary: Event)
    requires Bounds(boundary)
    ensures Prompt(s + [boundary]) == Prompt(s)
  {
    TurnGoesOn(s, boundary);
    if LastTurn(s).Turn? {
      SameWithBoundary(LastTurn(s), boundary);
    }
  }

  /** From the next user message on it is all that is left of what came before. */
  lemma BoundaryActsNextTurn(s: seq<Event>, boundary: Event, user: Event)
    requires Bounds(boundary) && SummaryText(boundary) != "" && Asks(user)
    ensures Parts(LastTurn(s + [boundary, user]))
         == [SummaryPart(SummaryText(boundary)), UserPart(UserText(user))]
  {
    UserLast(s, boundary, user);
    var before := s + [boundary];
    assert before[|s|] == boundary && before[|s| + 1..] == [];
    var none: seq<Event> := [];
    assert none + none == none;
  }
}
