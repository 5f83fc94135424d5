/** Which custom calls are still pending after the emitter has spoken. */
module CustomEmission {
  import opened Folds
  import opened Text
  import opened Wire
  import opened Emit
  import opened CustomTools
  import opened Selections

  /** Only a client can answer this call: it is declared, or no built-in. */
  predicate IsCustom(cfg: Config, c: RawEvent)
    requires c.ToolCall?
  {
    cfg.Declared(EmittedName(c)) || !cfg.tools.Builtin(EmittedName(c))
  }

  /** A result whose call is not found under a declared name goes on the wire. */
  predicate Surfaces(cfg: Config, upTo: seq<RawEvent>, d: RawEvent)
    requires d.ToolDone?
  {
    var name := NameForCall(upTo, ResultId(d));
    !(name.Some? && cfg.Declared(name.value))
  }

  function CustomId(cfg: Config, ev: RawEvent): seq<string> {
    if ev.ToolCall? && IsCustom(cfg, ev) && EmittedId(ev) != "" then [EmittedId(ev)] else []
  }

  /** Ids of the custom calls, in order. */
  function CustomIds(cfg: Config, raw: seq<RawEvent>): seq<string> {
    Gather((ev: RawEvent) => CustomId(cfg, ev), raw)
  }

  function SurfacedId(cfg: Config, upTo: seq<RawEvent>, ev: RawEvent): set<string> {
    if ev.ToolDone? && Surfaces(cfg, upTo, ev) && ResultId(ev) != "" then {ResultId(ev)} else {}
  }

  /** Ids answered on the wire by some result of the list. */
  function SurfacedIds(cfg: Config, raw: seq<RawEvent>): set<string> {
    if raw == [] then {}
    else SurfacedIds(cfg, raw[..|raw| - 1]) + SurfacedId(cfg, raw, raw[|raw| - 1])
  }

  predicate IsToolEvent(e: WireEvent) { e.ToolUse? || e.CustomToolUse? || e.ToolResult? }

  ghost predicate NoTools(out: Output) {
    forall i | 0 <= i < |out| :: !IsToolEvent(out[i])
  }

  lemma {:induction false} NoToolsNoIds(tools: ToolTable, out: Output)
    requires NoTools(out)
    ensures Uses(tools, out) == [] && Answered(out) == {}
  {
    if out != [] {
      var n := |out| - 1;
      NoToolsNoIds(tools, out[..n]);
      UsesExtends(tools, out[..n], out[n]);
      assert out == out[..n] + [out[n]];
    }
  }

  lemma {:induction false} BlocksNoTools(blocks: seq<Block>, n: nat, filter: Option<int>, t: Thinker)
    requires n <= |blocks| && NoTools(t.out)
    ensures NoTools(ThinkBlocks(blocks, n, filter, t).out)
  {
    if n > 0 { BlocksNoTools(blocks, n - 1, filter, t); }
  }

  lemma MessageNoTools(cfg: Config, m: Message, only: ContentIndex, live: set<int>, emitted: set<int>)
    ensures NoTools(ThinkMessage(cfg, m, only, live, emitted).out)
  {
    if m.content.Blocks? {
      BlocksNoTools(m.content.blocks, |m.content.blocks|, OnlyIndex(only), Thinker(live, emitted, []));
    }
  }

  lemma CloseNoTools(cfg: Config, st: State, m: Message)
    ensures NoTools(Close(cfg, st, m).1)
  {
    MessageNoTools(cfg, m, Absent, st.live, st.emitted);
    var thought := ThinkMessage(cfg, m, Absent, st.live, st.emitted).out;
    TextNoTools(Rest(st, MessageText(m)), m);
    JoinNoTools(thought, Say(Rest(st, MessageText(m))), UsageEvents(m));
  }

  lemma TextNoTools(text: string, m: Message)
    ensures NoTools(Say(text)) && NoTools(UsageEvents(m))
  {
  }

  lemma JoinNoTools(a: Output, b: Output, c: Output)
    requires NoTools(a) && NoTools(b) && NoTools(c)
    ensures NoTools(a + b + c)
  {
  }

  lemma StepNoTools(cfg: Config, st: State, upTo: seq<RawEvent>, ev: RawEvent)
    requires !ev.ToolCall? && !ev.ToolDone?
    ensures NoTools(Step(cfg, st, upTo, ev).1)
  {
    match ev
    case MessageUpdate(part, message) =>
      if IsThinkingPart(part) && part.ThinkingEnd? && message.Some? {
        MessageNoTools(cfg, message.value, part.index, ThinkingPart(part, st.live).0, st.emitted);
      }
    case MessageEnd(m) =>
      if m.Some? && m.value.isAssistant { CloseNoTools(cfg, st, m.value); }
    case TurnEnd(m) =>
      if m.Some? && m.value.isAssistant { CloseNoTools(cfg, st, m.value); }
    case _ =>
  }

  /** A tool event and then events of other kinds. */
  lemma HeadIds(tools: ToolTable, head: WireEvent, rest: Output)
    requires NoTools(rest)
    ensures Uses(tools, [head] + rest) == UseOf(tools, head) && Answered([head] + rest) == AnswerOf(head)
  {
    NoToolsNoIds(tools, rest);
    GatherOne((e: WireEvent) => UseOf(tools, e), head);
    GatherAppend((e: WireEvent) => UseOf(tools, e), [head], rest);
    UsesExtends(tools, [], head);
    assert [] + [head] == [head];
    AnsweredAppend([head], rest);
    assert UseOf(tools, head) + [] == UseOf(tools, head);
  }

  lemma CallIds(cfg: Config, c: RawEvent)
    requires c.ToolCall?
    ensures Uses(cfg.tools, Announce(cfg, c)) == CustomId(cfg, c) && Answered(Announce(cfg, c)) == {}
  {
    var out := Announce(cfg, c);
    HeadIds(cfg.tools, out[0], out[1..]);
    assert out == [out[0]] + out[1..];
  }

  lemma DoneIds(cfg: Config, upTo: seq<RawEvent>, d: RawEvent)
    requires d.ToolDone?
    ensures
      var out := Report(cfg, d, NameForCall(upTo, ResultId(d)));
      Uses(cfg.tools, out) == [] && Answered(out) == SurfacedId(cfg, upTo, d)
  {
    var out := Report(cfg, d, NameForCall(upTo, ResultId(d)));
    if Surfaces(cfg, upTo, d) {
      HeadIds(cfg.tools, out[0], out[1..]);
      assert out == [out[0]] + out[1..];
    }
  }

  lemma StepIds(cfg: Config, st: State, upTo: seq<RawEvent>, ev: RawEvent)
    ensures
      var out := Step(cfg, st, upTo, ev).1;
      Uses(cfg.tools, out) == CustomId(cfg, ev) && Answered(out) == SurfacedId(cfg, upTo, ev)
  {
    if ev.ToolCall? {
      CallIds(cfg, ev);
    } else if ev.ToolDone? {
      DoneIds(cfg, upTo, ev);
    } else {
      StepNoTools(cfg, st, upTo, ev);
      NoToolsNoIds(cfg.tools, Step(cfg, st, upTo, ev).1);
    }
  }

  lemma {:induction false} BatchIds(cfg: Config, st: State, raw: seq<RawEvent>)
    ensures
      var out := After(cfg, st, [], raw).1;
      Uses(cfg.tools, out) == CustomIds(cfg, raw) && Answered(out) == SurfacedIds(cfg, raw)
  {
    if raw == [] {
      AfterNothing(cfg, st, []);
    } else {
      var n := |raw| - 1;
      var init, ev := raw[..n], raw[n];
      assert raw == init + [ev] && [] + init + [ev] == raw;
      BatchIds(cfg, st, init);
      AfterExtends(cfg, st, [], init, ev);
      var (s, out) := After(cfg, st, [], init);
      var more := Step(cfg, s, raw, ev).1;
      StepIds(cfg, s, raw, ev);
      GatherAppend((e: WireEvent) => UseOf(cfg.tools, e), out, more);
      AnsweredAppend(out, more);
      GatherExtends((e: RawEvent) => CustomId(cfg, e), init, ev);
    }
  }

  /** Main result, for every raw list: the harness's pending list over the emitted
      events is the window of the custom calls no surfaced result answers. */
  lemma PendingAfterEmission(cfg: Config, st: State, raw: seq<RawEvent>)
    ensures
      var out := After(cfg, st, [], raw).1;
      Window(Without(Dedup(Uses(cfg.tools, out)), Answered(out)))
        == Window(Without(Dedup(CustomIds(cfg, raw)), SurfacedIds(cfg, raw)))
  {
    BatchIds(cfg, st, raw);
  }

  // ---- when a declared call stays pending ------------------------------------

  /** Call c is found again under the id and name it was announced with. */
  predicate Findable(c: RawEvent)
    requires c.ToolCall?
  {
    LookupId(c) == EmittedId(c) && LookupName(c) == EmittedName(c) && LookupName(c) != ""
  }

  /** Calls are findable, carry distinct ids, and precede their results. */
  ghost predicate Orderly(raw: seq<RawEvent>) {
    && (forall i | 0 <= i < |raw| && raw[i].ToolCall? :: Findable(raw[i]))
    && (forall i, j | 0 <= i < j < |raw| && raw[i].ToolCall? && raw[j].ToolCall? ::
          EmittedId(raw[i]) != EmittedId(raw[j]))
    && forall i, j | 0 <= i < j < |raw| && raw[i].ToolDone? && raw[j].ToolCall? ::
         ResultId(raw[i]) != EmittedId(raw[j])
  }

  /** Some result of the list carries this id. */
  ghost predicate HasResult(raw: seq<RawEvent>, id: string) {
    exists j :: 0 <= j < |raw| && raw[j].ToolDone? && ResultId(raw[j]) == id && id != ""
  }

  lemma {:induction false} FoundByName(raw: seq<RawEvent>, n: nat, i: nat)
    requires i < n <= |raw| && Orderly(raw) && raw[i].ToolCall? && EmittedId(raw[i]) != ""
    ensures NameForCall(raw[..n], EmittedId(raw[i])) == Some(EmittedName(raw[i]))
  {
    var events := raw[..n];
    assert events[n - 1] == raw[n - 1] && events[..n - 1] == raw[..n - 1];
    if i < n - 1 {
      FoundByName(raw, n - 1, i);
    }
  }

  lemma {:induction false} SurfacedMember(cfg: Config, raw: seq<RawEvent>, n: nat, id: string)
    requires n <= |raw|
    ensures id in SurfacedIds(cfg, raw[..n]) <==>
      && id != ""
      && exists j :: 0 <= j < n && raw[j].ToolDone? && ResultId(raw[j]) == id && Surfaces(cfg, raw[..j + 1], raw[j])
  {
    if n > 0 {
      SurfacedMember(cfg, raw, n - 1, id);
      assert raw[..n][..n - 1] == raw[..n - 1] && raw[..n - 1 + 1] == raw[..n];
    }
  }

  /** On an orderly list a declared call is never answered on the wire, and any
      other custom call is answered exactly when a result for it is there. */
  lemma OrderlyPending(cfg: Config, raw: seq<RawEvent>, i: nat)
    requires Orderly(raw) && i < |raw| && raw[i].ToolCall? && EmittedId(raw[i]) != ""
    ensures EmittedId(raw[i]) in SurfacedIds(cfg, raw)
       <==> !cfg.Declared(EmittedName(raw[i])) && HasResult(raw, EmittedId(raw[i]))
  {
    var id := EmittedId(raw[i]);
    SurfacedMember(cfg, raw, |raw|, id);
    assert raw[..|raw|] == raw;
    forall j | 0 <= j < |raw| && raw[j].ToolDone? && ResultId(raw[j]) == id
      ensures Surfaces(cfg, raw[..j + 1], raw[j]) <==> !cfg.Declared(EmittedName(raw[i]))
    {
      FoundByName(raw, j + 1, i);
    }
  }

  /** What is promised: calls declared custom, and undeclared ones that are no
      built-in and have no result yet. */
  ghost function PromisedId(cfg: Config, raw: seq<RawEvent>, ev: RawEvent): seq<string> {
    if ev.ToolCall? && (cfg.Declared(EmittedName(ev)) || !HasResult(raw, EmittedId(ev))) then CustomId(cfg, ev) else []
  }

  ghost function Promised(cfg: Config, raw: seq<RawEvent>): seq<string> {
    Gather((ev: RawEvent) => PromisedId(cfg, raw, ev), raw)
  }

  lemma {:induction false} CustomIdsFrom(cfg: Config, raw: seq<RawEvent>, n: nat, id: string)
    requires n <= |raw| && id in CustomIds(cfg, raw[..n])
    ensures exists i :: 0 <= i < n && raw[i].ToolCall? && EmittedId(raw[i]) == id
  {
    if n > 0 {
      assert raw[..n] == raw[..n - 1] + [raw[n - 1]];
      GatherExtends((e: RawEvent) => CustomId(cfg, e), raw[..n - 1], raw[n - 1]);
      if id !in CustomId(cfg, raw[n - 1]) {
        CustomIdsFrom(cfg, raw, n - 1, id);
      }
    }
  }

  lemma {:induction false} CustomIdsDistinct(cfg: Config, raw: seq<RawEvent>, n: nat)
    requires Orderly(raw) && n <= |raw|
    ensures NoDup(CustomIds(cfg, raw[..n]))
  {
    if n > 0 {
      var ev := raw[n - 1];
      CustomIdsDistinct(cfg, raw, n - 1);
      assert raw[..n] == raw[..n - 1] + [ev];
      GatherExtends((e: RawEvent) => CustomId(cfg, e), raw[..n - 1], ev);
      if CustomId(cfg, ev) != [] && EmittedId(ev) in CustomIds(cfg, raw[..n - 1]) {
        CustomIdsFrom(cfg, raw, n - 1, EmittedId(ev));
      }
    }
  }

  // ---- exactly when the promise is kept --------------------------------------

  /** Result j of the list finds a declared call under its id, so it stays off the
      wire. */
  predicate Hidden(cfg: Config, raw: seq<RawEvent>, j: nat)
    requires j < |raw| && raw[j].ToolDone?
  {
    var name := NameForCall(raw[..j + 1], ResultId(raw[j]));
    name.Some? && cfg.Declared(name.value)
  }

  /** Every result under a declared call's id is hidden; of those under another custom
      call's id, if there are any, one is not. */
  ghost predicate Faithful(cfg: Config, raw: seq<RawEvent>, i: nat)
    requires i < |raw| && raw[i].ToolCall?
  {
    var id := EmittedId(raw[i]);
    if cfg.Declared(EmittedName(raw[i])) then
      forall j: nat | j < |raw| && raw[j].ToolDone? && ResultId(raw[j]) == id :: Hidden(cfg, raw, j)
    else
      HasResult(raw, id) ==>
        exists j: nat :: j < |raw| && raw[j].ToolDone? && ResultId(raw[j]) == id && !Hidden(cfg, raw, j)
  }

  lemma FaithfulIs(cfg: Config, raw: seq<RawEvent>, i: nat)
    requires i < |raw| && CustomId(cfg, raw[i]) != []
    ensures
      var id := EmittedId(raw[i]);
      var answerable := !cfg.Declared(EmittedName(raw[i])) && HasResult(raw, id);
      Faithful(cfg, raw, i) <==> (id in SurfacedIds(cfg, raw) <==> answerable)
  {
    var id := EmittedId(raw[i]);
    SurfacedMember(cfg, raw, |raw|, id);
    assert raw[..|raw|] == raw;
    forall j: nat | j < |raw| && raw[j].ToolDone? && ResultId(raw[j]) == id
      ensures Hidden(cfg, raw, j) <==> !Surfaces(cfg, raw[..j + 1], raw[j])
    {
    }
  }

  /** After any raw list, a declared call still waits on the wire exactly when every
      result under its id finds a declared name. */
  lemma DeclaredCallWaits(cfg: Config, st: State, raw: seq<RawEvent>, i: nat)
    requires i < |raw| && raw[i].ToolCall? && EmittedId(raw[i]) != "" && cfg.Declared(EmittedName(raw[i]))
    ensures
      var out := After(cfg, st, [], raw).1;
      EmittedId(raw[i]) in Waiting(cfg.tools, out) <==>
        forall j: nat | j < |raw| && raw[j].ToolDone? && ResultId(raw[j]) == EmittedId(raw[i]) :: Hidden(cfg, raw, j)
  {
    BatchIds(cfg, st, raw);
    FaithfulIs(cfg, raw, i);
    CustomIdIn(cfg, raw, i);
    WithoutMember(CustomIds(cfg, raw), SurfacedIds(cfg, raw), EmittedId(raw[i]));
  }

  lemma {:induction false} CustomIdIn(cfg: Config, raw: seq<RawEvent>, i: nat)
    requires i < |raw| && CustomId(cfg, raw[i]) != []
    ensures EmittedId(raw[i]) in CustomIds(cfg, raw)
  {
    if i < |raw| - 1 {
      CustomIdIn(cfg, raw[..|raw| - 1], i);
    }
  }

  /** What is left of one call's id. */
  function LeftId(cfg: Config, gone: set<string>): RawEvent -> seq<string> {
    (ev: RawEvent) => if CustomId(cfg, ev) != [] && CustomId(cfg, ev)[0] in gone then [] else CustomId(cfg, ev)
  }

  lemma {:induction false} LeftIds(cfg: Config, raw: seq<RawEvent>, gone: set<string>)
    ensures Without(CustomIds(cfg, raw), gone) == Gather(LeftId(cfg, gone), raw)
  {
    if raw != [] {
      var init, ev := raw[..|raw| - 1], raw[|raw| - 1];
      LeftIds(cfg, init, gone);
      assert raw == init + [ev];
      GatherExtends((e: RawEvent) => CustomId(cfg, e), init, ev);
      if CustomId(cfg, ev) == [] {
        GatherSilent(LeftId(cfg, gone), init, ev);
        assert CustomIds(cfg, init) + [] == CustomIds(cfg, init);
      } else {
        WithoutExtends(CustomIds(cfg, init), EmittedId(ev), gone);
        GatherExtends(LeftId(cfg, gone), init, ev);
      }
    }
  }

  /** The emitter keeps its promise for every custom call that comes before the limit
      of promised ones is reached. */
  ghost predicate KeepsPromise(cfg: Config, raw: seq<RawEvent>, limit: nat) {
    forall i: nat | i < |raw| && CustomId(cfg, raw[i]) != [] && |PromisedOf(cfg, raw, raw[..i])| < limit ::
      Faithful(cfg, raw, i)
  }

  /** Promised calls among some events of the list. */
  ghost function PromisedOf(cfg: Config, raw: seq<RawEvent>, events: seq<RawEvent>): seq<string> {
    Gather((ev: RawEvent) => PromisedId(cfg, raw, ev), events)
  }

  lemma PromiseExactly(cfg: Config, raw: seq<RawEvent>, limit: nat)
    requires NoDup(CustomIds(cfg, raw))
    ensures
      var left := Without(CustomIds(cfg, raw), SurfacedIds(cfg, raw));
      First(left, limit) == First(Promised(cfg, raw), limit) <==> KeepsPromise(cfg, raw, limit)
  {
    var gone := SurfacedIds(cfg, raw);
    var all, f, g := (e: RawEvent) => CustomId(cfg, e), LeftId(cfg, gone), (e: RawEvent) => PromisedId(cfg, raw, e);
    LeftIds(cfg, raw, gone);
    SameFirst(all, f, g, raw, limit);
    forall i: nat | i < |raw| ensures f(raw[i]) == g(raw[i]) <==> CustomId(cfg, raw[i]) == [] || Faithful(cfg, raw, i) {
      TreatedAlike(cfg, raw, i);
    }
  }

  /** A call is left exactly when it is promised, just if the emitter is faithful to it. */
  lemma TreatedAlike(cfg: Config, raw: seq<RawEvent>, i: nat)
    requires i < |raw|
    ensures LeftId(cfg, SurfacedIds(cfg, raw))(raw[i]) == PromisedId(cfg, raw, raw[i]) <==>
      CustomId(cfg, raw[i]) == [] || Faithful(cfg, raw, i)
  {
    if CustomId(cfg, raw[i]) != [] {
      FaithfulIs(cfg, raw, i);
    }
  }

  /** On lists whose custom calls carry distinct ids, the harness's pending list over
      the emitted events is the first five promised calls if and only if the emitter is
      faithful to every custom call before the fifth promised one. */
  lemma PendingAsPromised(cfg: Config, st: State, raw: seq<RawEvent>)
    requires NoDup(CustomIds(cfg, raw))
    ensures
      var out := After(cfg, st, [], raw).1;
      var pending := Window(Without(Dedup(Uses(cfg.tools, out)), Answered(out)));
      pending == Window(Promised(cfg, raw)) <==> KeepsPromise(cfg, raw, WINDOW)
  {
    PendingAfterEmission(cfg, st, raw);
    DedupFixed(CustomIds(cfg, raw));
    PromiseExactly(cfg, raw, WINDOW);
  }

  /** The same for all waiting calls, windowed or not. */
  lemma WaitingAsPromised(cfg: Config, st: State, raw: seq<RawEvent>)
    requires NoDup(CustomIds(cfg, raw))
    ensures
      Waiting(cfg.tools, After(cfg, st, [], raw).1) == Promised(cfg, raw) <==>
        forall i: nat | i < |raw| && CustomId(cfg, raw[i]) != [] :: Faithful(cfg, raw, i)
  {
    BatchIds(cfg, st, raw);
    var limit := |Without(CustomIds(cfg, raw), SurfacedIds(cfg, raw))| + |Promised(cfg, raw)| + 1;
    PromiseExactly(cfg, raw, limit);
    KeepsEvery(cfg, raw, limit);
  }

  /** Beyond the number of promised calls the limit does not matter. */
  lemma KeepsEvery(cfg: Config, raw: seq<RawEvent>, limit: nat)
    requires limit > |Promised(cfg, raw)|
    ensures KeepsPromise(cfg, raw, limit) <==>
      forall i: nat | i < |raw| && CustomId(cfg, raw[i]) != [] :: Faithful(cfg, raw, i)
  {
    forall n: nat | n < |raw| ensures |PromisedOf(cfg, raw, raw[..n])| < limit {
      GatherAppend((ev: RawEvent) => PromisedId(cfg, raw, ev), raw[..n], raw[n..]);
      assert raw == raw[..n] + raw[n..];
    }
  }

  /** Orderly lists are among them. */
  lemma OrderlyKeepsPromise(cfg: Config, st: State, raw: seq<RawEvent>)
    requires Orderly(raw)
    ensures KeepsPromise(cfg, raw, WINDOW)
    ensures
      var out := After(cfg, st, [], raw).1;
      Window(Without(Dedup(Uses(cfg.tools, out)), Answered(out))) == Window(Promised(cfg, raw))
  {
    assert raw[..|raw|] == raw;
    CustomIdsDistinct(cfg, raw, |raw|);
    forall i: nat | i < |raw| && CustomId(cfg, raw[i]) != [] ensures Faithful(cfg, raw, i) {
      OrderlyPending(cfg, raw, i);
      FaithfulIs(cfg, raw, i);
    }
    PendingAsPromised(cfg, st, raw);
  }

  /** The failing input: this declared call names itself twice, its stub's result comes
      back under the first name, and it is promised but no longer pending. */
  lemma LostDeclaredCall(cfg: Config, st: State, call: RawEvent, done: RawEvent)
    requires cfg.Declared("decide")
    requires call == ToolCall("a", "b", "", "u", "decide", None, ToolInput("", "", ""))
    requires done == ToolDone("a", "", "", "")
    ensures Promised(cfg, [call, done]) == ["a"] && !Orderly([call, done])
    ensures
      var out := After(cfg, st, [], [call, done]).1;
      Window(Without(Dedup(Uses(cfg.tools, out)), Answered(out))) == []
  {
    var raw := [call, done];
    LostIds(cfg, call, done);
    assert !Findable(raw[0]);
    PendingAfterEmission(cfg, st, raw);
    DedupFixed(["a"]);
    assert raw == [call] + [done];
    var promised := (ev: RawEvent) => PromisedId(cfg, raw, ev);
    GatherExtends(promised, [call], done);
    GatherOne(promised, call);
  }

  lemma LostIds(cfg: Config, call: RawEvent, done: RawEvent)
    requires cfg.Declared("decide")
    requires call == ToolCall("a", "b", "", "u", "decide", None, ToolInput("", "", ""))
    requires done == ToolDone("a", "", "", "")
    ensures CustomIds(cfg, [call, done]) == ["a"] && "a" in SurfacedIds(cfg, [call, done])
    ensures Without(["a"], SurfacedIds(cfg, [call, done])) == []
  {
    var raw := [call, done];
    assert raw == [call] + [done] && raw[..2] == raw;
    GatherExtends((e: RawEvent) => CustomId(cfg, e), [call], done);
    GatherOne((e: RawEvent) => CustomId(cfg, e), call);
    assert raw[..1] == [call] && [call][..0] == [];
    assert NameForCall([], "a") == None && LookupId(call) == "b";
    assert NameForCall([call], "a") == None;
    assert NameForCall(raw, "a") == None;
    assert Surfaces(cfg, raw[..2], raw[1]) && ResultId(raw[1]) == "a";
    SurfacedMember(cfg, raw, 2, "a");
    WithoutOne("a", SurfacedIds(cfg, raw));
  }

  lemma WithoutOne(id: string, gone: set<string>)
    requires id in gone
    ensures Without([id], gone) == []
  {
    GatherOne((x: string) => if x in gone then [] else [x], id);
  }
}
