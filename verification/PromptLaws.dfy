/** What a prompt shows of a thread, told by the kinds and fields of its events. */
module PromptLaws {
  import opened Folds
  import opened Text
  import opened Projection

  // ---- texts ---------------------------------------------------------------------

  predicate Legible(b: Block) { b.isText && b.text != "" }

  predicate HasText(blocks: seq<Block>) { exists i :: 0 <= i < |blocks| && Legible(blocks[i]) }

  /** The legible blocks' texts, one per line. */
  function Lines(blocks: seq<Block>): string {
    if blocks == [] then ""
    else
      var init, last := Lines(blocks[..|blocks| - 1]), blocks[|blocks| - 1];
      if !Legible(last) then init else NextLine(init, last.text)
  }

  /** Texts that are not empty stand below each other. */
  function NextLine(text: string, more: string): string {
    if text == "" then more else if more == "" then text else text + "\n" + more
  }

  lemma JoinNext(parts: seq<string>, part: string)
    requires "" !in parts
    ensures Join(parts + [part], "\n") == if parts == [] then part else Join(parts, "\n") + "\n" + part
    ensures parts != [] ==> Join(parts, "\n") != ""
  {
    assert (parts + [part])[..|parts|] == parts;
    if parts != [] {
      JoinNonEmpty(parts, "\n");
    }
  }

  lemma {:induction false} LinesJoined(blocks: seq<Block>)
    ensures Join(Texts(blocks), "\n") == Lines(blocks)
    ensures Texts(blocks) == [] <==> !HasText(blocks)
    ensures Lines(blocks) == "" <==> !HasText(blocks)
  {
    if blocks != [] {
      var init, last := blocks[..|blocks| - 1], blocks[|blocks| - 1];
      LinesJoined(init);
      assert blocks == init + [last];
      GatherExtends(BlockText, init, last);
      TextsNonEmpty(init);
      if Legible(last) {
        JoinNext(Texts(init), last.text);
      } else {
        assert Texts(init) + [] == Texts(init);
      }
      assert HasText(blocks) <==> HasText(init) || Legible(last) by {
        assert forall i | 0 <= i < |init| :: blocks[i] == init[i];
        assert blocks[|init|] == last;
      }
    }
  }

  /** A call also shows its name and input, a result the call it answers. */
  function Shown(e: Event): string {
    match e.kind
    case ToolUse => NextInput(Lines(e.content), e)
    case CustomToolUse => NextInput(Lines(e.content), e)
    case ToolResult => NextLine(Lines(e.content), e.toolUseId)
    case _ => Lines(e.content)
  }

  /** The input stands on its own line even when it is empty. */
  function NextInput(text: string, e: Event): string {
    var named := NextLine(text, e.name);
    match e.input
    case None => named
    case Some(input) => if named == "" then input else named + "\n" + input
  }

  lemma ShownIs(e: Event)
    ensures EventText(e) == Shown(e)
  {
    LinesJoined(e.content);
    TextsNonEmpty(e.content);
    var texts := Texts(e.content);
    if e.kind.ToolUse? || e.kind.CustomToolUse? {
      CallShown(texts, e.name, e.input);
    } else if e.kind.ToolResult? {
      ResultShown(texts, e.toolUseId);
    } else {
      assert texts + [] + [] == texts;
    }
  }

  lemma CallShown(texts: seq<string>, name: string, input: Option<string>)
    requires "" !in texts
    ensures
      var parts := texts + ((if name != "" then [name] else []) + (if input.Some? then [input.value] else [])) + [];
      var named := NextLine(Join(texts, "\n"), name);
      Join(parts, "\n") == match input
                           case None => named
                           case Some(text) => if named == "" then text else named + "\n" + text
  {
    var before := texts + if name != "" then [name] else [];
    JoinNext(texts, name);
    if name == "" {
      assert before == texts;
    }
    assert Join(before, "\n") == NextLine(Join(texts, "\n"), name);
    if input.Some? {
      JoinNext(before, input.value);
      assert texts + ((if name != "" then [name] else []) + [input.value]) + [] == before + [input.value];
    } else {
      assert texts + ((if name != "" then [name] else []) + []) + [] == before;
    }
  }

  lemma ResultShown(texts: seq<string>, id: string)
    requires "" !in texts
    ensures Join(texts + [] + (if id != "" then [id] else []), "\n") == NextLine(Join(texts, "\n"), id)
  {
    JoinNext(texts, id);
    assert texts + [] == texts && texts + [] + [] == texts;
  }

  // ---- lines ---------------------------------------------------------------------

  /** The label of an event's line, for the kinds that have one. */
  function Label(e: Event): Option<string> {
    match e.kind
    case UserMessage => Some("USER: ")
    case AgentMessage => Some("ASSISTANT: ")
    case ToolUse => Some("ASSISTANT: ")
    case ToolResult => Some("ASSISTANT: ")
    case CustomToolUse => Some("ASSISTANT: ")
    case CustomToolResult => Some("ASSISTANT: ")
    case UserCustomToolResult => None
    case Compacted => None
    case SessionFrame => None
    case OtherKind => None
  }

  /** The event's line in the history, "" for none. */
  function LineOf(e: Event): string {
    if Label(e).None? || Shown(e) == "" then "" else Label(e).value + Shown(e)
  }

  lemma {:induction false} LinesNonEmpty(events: seq<Event>)
    ensures "" !in Gather(Line, events)
  {
    if events != [] {
      LinesNonEmpty(events[..|events| - 1]);
    }
  }

  lemma ConversationNext(events: seq<Event>, e: Event)
    ensures Conversation(events + [e]) == NextLine(Conversation(events), LineOf(e))
  {
    ShownIs(e);
    GatherExtends(Line, events, e);
    var lines := Gather(Line, events);
    LinesNonEmpty(events);
    if Line(e) == [] {
      assert lines + [] == lines;
    } else {
      JoinNext(lines, Line(e)[0]);
    }
  }

  // ---- the prompt ----------------------------------------------------------------

  /** A user message with text. */
  predicate IsQuestion(e: Event) { e.kind == UserMessage && HasText(e.content) }

  predicate IsBoundary(e: Event) { e.kind == Compacted && e.summary != [] }

  /** The sections of a prompt, those that are empty left out. */
  function Layout(summary: string, history: string, question: string): string {
    (if summary == "" then ""
     else "<conversation-summary>\n" + summary + "\n</conversation-summary>" + "\n\n")
    + (if history == "" then ""
       else "<conversation-history>\n" + history + "\n</conversation-history>" + "\n\n")
    + question
  }

  lemma JoinThree(x: string, y: string, z: string, sep: string)
    ensures Join([x, y, z], sep) == x + sep + y + sep + z
  {
    assert [x, y, z][..2] == [x, y] && [x, y][..1] == [x];
    assert Join([x, y], sep) == x + sep + y;
  }

  lemma GatherThree<E, O>(f: E -> seq<O>, a: E, b: E, c: E)
    ensures Gather(f, [a, b, c]) == f(a) + f(b) + f(c)
  {
    assert [a, b, c] == [a, b] + [c] && [a, b] == [a] + [b];
    GatherExtends(f, [a, b], c);
    GatherExtends(f, [a], b);
    GatherOne(f, a);
  }

  lemma RenderThree(first: Part, second: Part, third: Part)
    ensures Render([first, second, third])
         == PartText(first)[0] + "\n\n" + PartText(second)[0] + "\n\n" + PartText(third)[0]
  {
    GatherThree(PartText, first, second, third);
    var x, y, z := PartText(first)[0], PartText(second)[0], PartText(third)[0];
    assert PartText(first) + PartText(second) + PartText(third) == [x, y, z];
    JoinThree(x, y, z, "\n\n");
  }

  lemma RenderLayout(summary: string, history: string, question: string)
    ensures Render(Compose(summary, history, question)) == Layout(summary, history, question)
  {
    if summary == "" {
      RenderHistory(history, question);
      assert "" + question == question;
    } else if history == "" {
      assert Compose(summary, history, question) == [SummaryPart(summary), UserPart(question)];
      RenderTwo(SummaryPart(summary), UserPart(question));
    } else {
      var parts := [SummaryPart(summary), HistoryPart(history), UserPart(question)];
      assert Compose(summary, history, question) == parts;
      RenderThree(SummaryPart(summary), HistoryPart(history), UserPart(question));
    }
  }

  lemma AsksIs(e: Event)
    ensures Asks(e) <==> IsQuestion(e)
    ensures UserText(e) == Lines(e.content)
  {
    LinesJoined(e.content);
  }

  /** Nothing is asked before the first question. */
  lemma {:induction false} NothingAsked(s: seq<Event>)
    requires forall e | e in s :: !IsQuestion(e)
    ensures LastTurn(s) == NoTurn && Prompt(s) == ""
  {
    if s != [] {
      NothingAsked(s[..|s| - 1]);
      AsksIs(s[|s| - 1]);
    }
  }

  /** A question's prompt: the summary and the history of what came before it, then its
      text. */
  lemma QuestionPrompt(before: seq<Event>, question: Event)
    requires IsQuestion(question)
    ensures Prompt(before + [question])
         == Layout(Summary(before), Conversation(History(before)), Lines(question.content))
  {
    AsksIs(question);
    var s := before + [question];
    assert s[..|before|] == before && s[|before|] == question && s[|before| + 1..] == [];
    assert LastIndex(s, Asks) == |before|;
    var none: seq<Event> := [];
    assert History(before) + none == History(before);
    RenderLayout(Summary(before), Conversation(History(before)), UserText(question));
  }

  /** The sections of a thread's prompt. */
  datatype Sections = Sections(summary: string, history: string, question: string)

  function SectionsOf(s: seq<Event>): Sections
    requires LastTurn(s).Turn?
  {
    var turn := LastTurn(s);
    Sections(Summary(turn.before), Conversation(History(turn.before) + Gather(Kept, turn.after)), UserText(turn.user))
  }

  lemma PromptIs(s: seq<Event>)
    requires LastTurn(s).Turn?
    ensures var x := SectionsOf(s); Prompt(s) == Layout(x.summary, x.history, x.question)
  {
    var x := SectionsOf(s);
    RenderLayout(x.summary, x.history, x.question);
  }

  /** An event that is no question leaves the question the last one. */
  lemma TurnGrows(s: seq<Event>, e: Event)
    requires LastTurn(s).Turn? && !IsQuestion(e)
    ensures LastTurn(s + [e]) == LastTurn(s).(after := LastTurn(s).after + [e])
  {
    AsksIs(e);
    var all, u := s + [e], LastIndex(s, Asks);
    assert all[..|s|] == s && all[|s|] == e;
    assert all[..u] == s[..u] && all[u] == s[u] && all[u + 1..] == s[u + 1..] + [e];
  }

  lemma HistoryGrows(shown: seq<Event>, after: seq<Event>, e: Event)
    ensures Conversation(shown + Gather(Kept, after + [e]))
         == NextLine(Conversation(shown + Gather(Kept, after)), LineOf(e))
  {
    var history := shown + Gather(Kept, after);
    GatherExtends(Kept, after, e);
    ConversationNext(history, e);
    if Kept(e) == [] {
      KeptHasLine(e);
      assert Gather(Kept, after) + [] == Gather(Kept, after);
    } else {
      assert shown + (Gather(Kept, after) + [e]) == history + [e];
    }
  }

  /** What follows a question and is no question itself adds its line to the history and
      changes nothing else. */
  lemma AnswerAppended(s: seq<Event>, e: Event)
    requires LastTurn(s).Turn? && !IsQuestion(e)
    ensures LastTurn(s + [e]).Turn?
    ensures SectionsOf(s + [e]) == SectionsOf(s).(history := NextLine(SectionsOf(s).history, LineOf(e)))
  {
    TurnGrows(s, e);
    HistoryGrows(History(LastTurn(s).before), LastTurn(s).after, e);
  }

  lemma KeptHasLine(e: Event)
    ensures Kept(e) == [] ==> LineOf(e) == ""
  {
  }

  lemma LongerLayout(summary: string, history: string, line: string, question: string)
    ensures Layout(summary, NextLine(history, line), question) == Layout(summary, history, question) <==> line == ""
  {
    if line != "" {
      assert |NextLine(history, line)| > |history|;
      assert |Layout(summary, NextLine(history, line), question)| > |Layout(summary, history, question)|;
    }
  }

  /** Resuming a turn: an event after the question changes the prompt exactly if it is an
      agent's message, a call or a result with something to show, and then its line is the
      last of the history. */
  lemma ResumedPrompt(s: seq<Event>, e: Event)
    requires LastTurn(s).Turn? && !IsQuestion(e)
    ensures
      var x := SectionsOf(s);
      && Prompt(s) == Layout(x.summary, x.history, x.question)
      && Prompt(s + [e]) == Layout(x.summary, NextLine(x.history, LineOf(e)), x.question)
      && (Prompt(s + [e]) != Prompt(s) <==> Label(e).Some? && Shown(e) != "")
  {
    AnswerAppended(s, e);
    PromptIs(s);
    PromptIs(s + [e]);
    var x := SectionsOf(s);
    LongerLayout(x.summary, x.history, LineOf(e), x.question);
  }

  // ---- what came before the question ------------------------------------------------

  lemma {:induction false} NoBoundary(events: seq<Event>)
    requires forall e | e in events :: !IsBoundary(e)
    ensures LastIndex(events, Bounds) == -1
  {
    if events != [] {
      NoBoundary(events[..|events| - 1]);
      assert events[|events| - 1] in events;
    }
  }

  /** Without a boundary there is no summary, and all is history. */
  lemma AllHistory(before: seq<Event>)
    requires forall e | e in before :: !IsBoundary(e)
    ensures Summary(before) == "" && History(before) == before
  {
    NoBoundary(before);
  }

  /** After the latest boundary: its summary and what follows it, or everything if the
      summary is blank. */
  lemma BoundaryHistory(a: seq<Event>, boundary: Event, rest: seq<Event>)
    requires IsBoundary(boundary) && forall e | e in rest :: !IsBoundary(e)
    ensures
      var before, summary := a + [boundary] + rest, PyStrip(Lines(boundary.summary));
      Summary(before) == summary && History(before) == if summary == "" then before else rest
  {
    var before := a + [boundary] + rest;
    NoBoundary(rest);
    LastIndexAppend(a + [boundary], rest, Bounds);
    assert (a + [boundary])[|a|] == boundary;
    assert LastIndex(before, Bounds) == |a| && before[|a|] == boundary && before[|a| + 1..] == rest;
    LinesJoined(boundary.summary);
  }

  // ---- threads ------------------------------------------------------------------

  /** An event belongs to the thread it names, surrounding space left out, or to the
      primary one. */
  lemma ThreadOf(events: seq<Event>, e: Event, sid: string)
    ensures
      var own := PyStrip(e.thread);
      var wanted := if sid == "" then "sthr_primary" else sid;
      Scoped(events + [e], sid)
      == if (if own == "" then "sthr_primary" else own) == wanted then Scoped(events, sid) + [e]
         else Scoped(events, sid)
  {
    GatherExtends(Mine(sid), events, e);
    assert Scoped(events, sid) + [] == Scoped(events, sid);
  }
}
