/** How a translated message introduces itself, and in which order its calls are closed
    (unigateway-protocol/src/responses/anthropic_stream.rs:237-276, 589-652). */
module TranslationFraming {
  import opened Common
  import opened AnthropicEvents
  import opened ToolCalls
  import opened AnthropicStream
  import opened AnthropicStreamTheorems
  import opened TranslationTheorems
  import R = ReasoningText

  // ----- the first event -----

  /** How many text and thinking blocks were started. */
  function ContentStarts(events: seq<Event>): nat {
    if events == [] then 0
    else ContentStarts(events[..|events| - 1]) + if OpensContent(events[|events| - 1]) then 1 else 0
  }

  lemma StartsMore(events: seq<Event>, e: Event)
    ensures ContentStarts(events + [e]) == ContentStarts(events) + if OpensContent(e) then 1 else 0
  {
    assert (events + [e])[..|events|] == events;
  }

  predicate AllIndexed(table: Table) { forall t <- table.calls :: table.calls[t].anthropicIndex.Some? }

  /** Events were added, and an index was used for each text or thinking block that they start and each call
      that is new. */
  predicate Longer(s: Translator, t: Translator) {
    && s.sent <= t.sent && t.preludeSent == s.preludeSent
    && (AllIndexed(s.table) ==>
          && AllIndexed(t.table)
          && t.table.next - s.table.next
             == (ContentStarts(t.sent) - ContentStarts(s.sent)) + (|t.table.calls| - |s.table.calls|))
  }

  /** The message is introduced by its id, the requested model and its role, if anything was sent; and every
      index used so far is that of a text or thinking block, or of a call. */
  ghost predicate Introduced(s: Translator, id: string, model: string) {
    && (if !s.preludeSent then s.sent == []
        else s.sent != [] && s.sent[0] == MessageStart(Some("msg_" + id), Some(model), Some("assistant")))
    && AllIndexed(s.table) && s.table.next == ContentStarts(s.sent) + |s.table.calls|
  }

  lemma PreludedIntroduced(s: Translator, id: string, model: string)
    requires Introduced(s, id, model)
    ensures Introduced(Preluded(s, id, model), id, model) && Preluded(s, id, model).preludeSent
  {
    if !s.preludeSent {
      var hello := MessageStart(Some("msg_" + id), Some(model), Some("assistant"));
      StartsMore(s.sent, hello);
      StartsMore(s.sent + [hello], Ping);
    }
  }

  lemma LongerTwice(a: Translator, b: Translator, c: Translator)
    requires Longer(a, b) && Longer(b, c)
    ensures Longer(a, c)
  {}

  /** Any event but the start of such a block. */
  lemma EmittingLonger(s: Translator, e: Event)
    requires !OpensContent(e)
    ensures Longer(s, Emitting(s, e))
  {
    StartsMore(s.sent, e);
  }

  lemma ClosedLonger(s: Translator)
    ensures Longer(s, Closed(s))
  {
    if s.active.Some? {
      var signature := Send(s.active.value, SignatureDelta(PLACEHOLDER_SIGNATURE));
      EmittingLonger(s, signature);
      EmittingLonger(s, Stop(s.active.value));
      EmittingLonger(Emitting(s, signature), Stop(s.active.value));
    }
  }

  lemma OpenedLonger(s: Translator, kind: Kind)
    ensures Longer(s, Opened(s, kind))
  {
    var c := Closed(s);
    ClosedLonger(s);
    StartsMore(c.sent, Start(c.table.next, if kind == ThinkingKind then StartThinking("", "") else StartText("")));
    LongerTwice(s, c, Begun(c, kind));
  }

  lemma TextLonger(s: Translator, text: string)
    ensures Longer(s, TextOut(s, text))
  {
    var o := Opened(s, TextKind);
    OpenedLonger(s, TextKind);
    EmittingLonger(o, Send(o.active.GetOr(0), TextDelta(text)));
    LongerTwice(s, o, TextOut(s, text));
  }

  lemma ThinkingLonger(s: Translator, thinking: string)
    ensures Longer(s, ThinkingOut(s, thinking))
  {
    var o := Opened(s, ThinkingKind);
    OpenedLonger(s, ThinkingKind);
    EmittingLonger(o, Send(o.active.GetOr(0), ThinkingDelta(thinking)));
    LongerTwice(s, o, ThinkingOut(s, thinking));
  }

  lemma ChunkLonger(s: Translator, chunk: R.Chunk)
    ensures Longer(s, ReasoningChunkOut(s, chunk))
  {
    match chunk {
      case Thinking(t) => TextLonger(s, t); ThinkingLonger(s, t);
      case Text(t) => TextLonger(s, t);
    }
  }

  lemma {:induction false} ReasoningLonger(s: Translator, chunks: seq<R.Chunk>)
    ensures Longer(s, ReasoningOut(s, chunks))
  {
    if chunks != [] {
      var front := ReasoningOut(s, chunks[..|chunks| - 1]);
      ReasoningLonger(s, chunks[..|chunks| - 1]);
      ChunkLonger(front, chunks[|chunks| - 1]);
      LongerTwice(s, front, ReasoningOut(s, chunks));
    }
  }

  lemma ContentLonger(s: Translator, text: string)
    ensures Longer(s, ContentOut(s, text))
  {
    match s.parser {
      case None => TextLonger(s, text);
      case Some(state) =>
        var (next, chunks) := R.Pushed(state, text);
        ReasoningLonger(s.(parser := Some(next)), chunks);
    }
  }

  lemma UpdateLonger(s: Translator, start: Option<ToolStart>, delta: Option<Fragment>)
    ensures Longer(s, FragmentOut(StartOut(s, start), delta))
  {
    var a := StartOut(s, start);
    if start.Some? {
      EmittingLonger(s, Start(start.value.index, StartToolUse(start.value.id, start.value.name, "")));
    }
    if delta.Some? {
      EmittingLonger(a, Send(delta.value.index, InputJsonDelta(delta.value.partialJson)));
    }
    LongerTwice(s, a, FragmentOut(a, delta));
  }

  lemma NewCallIsCounted(s: Translator, t: nat, d: ToolDelta)
    ensures Longer(s, s.(table := ApplyDelta(s.table, t, d).0))
  {
    var after := ApplyDelta(s.table, t, d).0;
    assert after.calls.Keys == s.table.calls.Keys + {t};
  }

  lemma ToolLonger(s: Translator, t: nat, d: ToolDelta)
    ensures Longer(s, ToolOut(s, t, d))
  {
    var (table, update) := ApplyDelta(s.table, t, d);
    var a := s.(table := table);
    NewCallIsCounted(s, t, d);
    ClosedLonger(a);
    var b := if update.start.Some? then Closed(a) else a;
    UpdateLonger(b, update.start, update.delta);
    LongerTwice(s, a, b);
    LongerTwice(s, b, ToolOut(s, t, d));
  }

  lemma {:induction false} ToolsLonger(s: Translator, calls: seq<ToolDelta>)
    ensures Longer(s, ToolsOut(s, calls))
    decreases |calls|
  {
    if calls != [] {
      var last := |calls| - 1;
      ToolsLonger(s, calls[..last]);
      ToolLonger(ToolsOut(s, calls[..last]), calls[last].index.GetOr(last), calls[last]);
      LongerTwice(s, ToolsOut(s, calls[..last]), ToolsOut(s, calls));
    }
  }

  lemma ChunkInLonger(s: Translator, chunk: Chunk)
    ensures Longer(s, ChunkIn(s, chunk))
  {
    var a := ReasonNoted(s, chunk);
    var b := ReasoningIn(a, chunk);
    var c := ContentIn(b, chunk);
    ThinkingLonger(a, ReasoningOf(chunk));
    ContentLonger(b, chunk.content.GetOr(""));
    ToolsLonger(c, chunk.toolCalls);
    LongerTwice(s, b, c);
    LongerTwice(s, c, ChunkIn(s, chunk));
  }

  lemma LastWordLonger(s: Translator, t: nat)
    ensures var (table, stop) := FlushStop(s.table, t); Longer(s, StopOut(s.(table := table), stop))
  {
    var (table, stop) := FlushStop(s.table, t);
    var a := s.(table := table);
    assert table.calls.Keys == s.table.calls.Keys;
    var b := FragmentOut(StartOut(a, stop.start), stop.delta);
    UpdateLonger(a, stop.start, stop.delta);
    EmittingLonger(b, Stop(stop.stopIndex.GetOr(0)));
    LongerTwice(s, a, b);
    LongerTwice(s, b, Emitting(b, Stop(stop.stopIndex.GetOr(0))));
  }

  lemma FlushedLonger(s: Translator, t: nat)
    ensures Longer(s, ToolFlushed(s, t))
  {
    ToolLonger(s, t, EMPTY_DELTA);
    LastWordLonger(ToolOut(s, t, EMPTY_DELTA), t);
    LongerTwice(s, ToolOut(s, t, EMPTY_DELTA), ToolFlushed(s, t));
  }

  lemma {:induction false} AllFlushedLonger(s: Translator, order: seq<nat>)
    ensures Longer(s, ToolsFlushed(s, order))
    decreases |order|
  {
    if order != [] {
      var front := ToolsFlushed(s, order[..|order| - 1]);
      AllFlushedLonger(s, order[..|order| - 1]);
      FlushedLonger(front, order[|order| - 1]);
      LongerTwice(s, front, ToolsFlushed(s, order));
    }
  }

  lemma StaysIntroduced(s: Translator, t: Translator, id: string, model: string)
    requires Introduced(s, id, model) && s.preludeSent && Longer(s, t)
    ensures Introduced(t, id, model)
  {}

  lemma {:induction false} ChunksIntroduced(s: Translator, id: string, model: string, chunks: seq<Chunk>)
    requires Introduced(s, id, model)
    ensures Introduced(RunChunks(s, id, model, chunks), id, model)
    decreases |chunks|
  {
    if chunks != [] {
      var front := RunChunks(s, id, model, chunks[..|chunks| - 1]);
      ChunksIntroduced(s, id, model, chunks[..|chunks| - 1]);
      var p := Preluded(front, id, model);
      PreludedIntroduced(front, id, model);
      ChunkInLonger(p, chunks[|chunks| - 1]);
      StaysIntroduced(p, RunChunks(s, id, model, chunks), id, model);
    }
  }

  lemma DrainedIntroduced(s: Translator, id: string, model: string, outputText: Option<string>)
    requires Introduced(s, id, model)
    ensures Introduced(Drained(s, id, model, outputText), id, model) && Drained(s, id, model, outputText).preludeSent
  {
    var p := Preluded(s, id, model);
    PreludedIntroduced(s, id, model);
    var f := if p.table.next == 0 && outputText.GetOr("") != "" then ContentOut(p, outputText.GetOr("")) else p;
    ContentLonger(p, outputText.GetOr(""));
    if f.parser.Some? {
      ReasoningLonger(f.(parser := Some(R.INITIAL)), R.Finished(f.parser.value));
    }
    ClosedLonger(ParserFlushed(f));
    LongerTwice(p, f, ParserFlushed(f));
    LongerTwice(p, ParserFlushed(f), Drained(s, id, model, outputText));
    StaysIntroduced(p, Drained(s, id, model, outputText), id, model);
  }

  /** Every translation begins with the message's id and requested model, and leaves out no index: as many
      have been used as there are text and thinking blocks, and calls. */
  lemma TranslationIsIntroduced(reasoning: bool, policy: ThinkingPolicy, id: string, model: string,
                                chunks: seq<Chunk>, outputText: Option<string>)
    ensures var start := NewTranslator(reasoning, policy);
            var sent := Translation(start, id, model, chunks, outputText);
            var table := AllFlushed(start, id, model, chunks, outputText).table;
            && sent != [] && sent[0] == MessageStart(Some("msg_" + id), Some(model), Some("assistant"))
            && table.next == ContentStarts(sent) + |table.calls|
  {
    var start := NewTranslator(reasoning, policy);
    var s := RunChunks(start, id, model, chunks);
    ChunksIntroduced(start, id, model, chunks);
    DrainedIntroduced(s, id, model, outputText);
    var d := Drained(s, id, model, outputText);
    var order := Ascending(d.table.calls.Keys);
    AllFlushedLonger(d, order);
    var t := ToolsFlushed(d, order);
    StaysIntroduced(d, t, id, model);
    var reason := t.stopReason.GetOr(if t.table.calls == map[] then "end_turn" else "tool_use");
    StartsMore(t.sent, MessageDelta(Some(reason)));
    StartsMore(t.sent + [MessageDelta(Some(reason))], AnthropicEvents.MessageStop);
  }

  // ----- the order within a chunk -----

  predicate IsText(e: Event) { e.BlockDelta? && e.delta.Some? && e.delta.value.TextDelta? }

  predicate IsThinking(e: Event) { e.BlockDelta? && e.delta.Some? && e.delta.value.ThinkingDelta? }

  predicate IsTool(e: Event) {
    (e.BlockStart? && e.block.Some? && e.block.value.StartToolUse?)
    || (e.BlockDelta? && e.delta.Some? && e.delta.value.InputJsonDelta?)
  }

  /** `more` is what was sent in between, and none of it is what `banned` says. */
  predicate Adds(s: Translator, t: Translator, more: seq<Event>, banned: Event -> bool) {
    t.sent == s.sent + more && forall e <- more :: !banned(e)
  }

  const TOOL: Event -> bool := e => IsTool(e)
  const TEXT_OR_TOOL: Event -> bool := e => IsText(e) || IsTool(e)
  const SPEECH: Event -> bool := e => IsText(e) || IsThinking(e)

  lemma AddsTwice(a: Translator, b: Translator, c: Translator, x: seq<Event>, y: seq<Event>, banned: Event -> bool)
    requires Adds(a, b, x, banned) && Adds(b, c, y, banned)
    ensures Adds(a, c, x + y, banned)
  {
    Assoc(a.sent, x, y);
  }

  lemma EmittingAdds(s: Translator, e: Event, banned: Event -> bool)
    requires !banned(e)
    ensures Adds(s, Emitting(s, e), [e], banned)
  {}

  lemma ClosedAdds(s: Translator, banned: Event -> bool) returns (more: seq<Event>)
    requires banned == TOOL || banned == TEXT_OR_TOOL || banned == SPEECH
    ensures Adds(s, Closed(s), more, banned)
  {
    if s.active.None? {
      more := [];
    } else {
      var sign, stop := Send(s.active.value, SignatureDelta(PLACEHOLDER_SIGNATURE)), Stop(s.active.value);
      if s.activeKind == Some(ThinkingKind) && s.policy == PlaceholderThinking {
        EmittingAdds(s, sign, banned);
        EmittingAdds(Emitting(s, sign), stop, banned);
        AddsTwice(s, Emitting(s, sign), Closed(s), [sign], [stop], banned);
        more := [sign] + [stop];
      } else {
        EmittingAdds(s, stop, banned);
        more := [stop];
      }
    }
  }

  lemma OpenedAdds(s: Translator, kind: Kind, banned: Event -> bool) returns (more: seq<Event>)
    requires banned == TOOL || banned == TEXT_OR_TOOL || banned == SPEECH
    ensures Adds(s, Opened(s, kind), more, banned)
  {
    if s.active.Some? && s.activeKind == Some(kind) {
      more := [];
    } else {
      var c := Closed(s);
      var start := Start(c.table.next, if kind == ThinkingKind then StartThinking("", "") else StartText(""));
      var x := ClosedAdds(s, banned);
      EmittingAdds(c, start, banned);
      AddsTwice(s, c, Begun(c, kind), x, [start], banned);
      more := x + [start];
    }
  }

  lemma TextAdds(s: Translator, text: string) returns (more: seq<Event>)
    ensures Adds(s, TextOut(s, text), more, TOOL)
  {
    var o := Opened(s, TextKind);
    var x := OpenedAdds(s, TextKind, TOOL);
    more := x + [Send(o.active.GetOr(0), TextDelta(text))];
    Assoc(s.sent, x, [Send(o.active.GetOr(0), TextDelta(text))]);
  }

  lemma ThinkingAdds(s: Translator, thinking: string, banned: Event -> bool) returns (more: seq<Event>)
    requires banned == TOOL || banned == TEXT_OR_TOOL
    ensures Adds(s, ThinkingOut(s, thinking), more, banned) && more != []
  {
    var o := Opened(s, ThinkingKind);
    var x := OpenedAdds(s, ThinkingKind, banned);
    more := x + [Send(o.active.GetOr(0), ThinkingDelta(thinking))];
    Assoc(s.sent, x, [Send(o.active.GetOr(0), ThinkingDelta(thinking))]);
  }

  lemma {:induction false} ReasoningAdds(s: Translator, chunks: seq<R.Chunk>) returns (more: seq<Event>)
    ensures Adds(s, ReasoningOut(s, chunks), more, TOOL)
  {
    if chunks == [] {
      more := [];
    } else {
      var last := chunks[|chunks| - 1];
      var b := ReasoningOut(s, chunks[..|chunks| - 1]);
      var x := ReasoningAdds(s, chunks[..|chunks| - 1]);
      var said := if last.Thinking? then last.thinking else last.text;
      var y;
      if last.Thinking? && b.policy == PlaceholderThinking {
        y := ThinkingAdds(b, said, TOOL);
      } else {
        y := TextAdds(b, said);
      }
      more := x + y;
      AddsTwice(s, b, ReasoningOut(s, chunks), x, y, TOOL);
    }
  }

  lemma ContentAdds(s: Translator, text: string) returns (more: seq<Event>)
    ensures Adds(s, ContentOut(s, text), more, TOOL)
  {
    if s.parser.Some? {
      var (next, chunks) := R.Pushed(s.parser.value, text);
      more := ReasoningAdds(s.(parser := Some(next)), chunks);
    } else {
      more := TextAdds(s, text);
    }
  }

  lemma ToolAdds(s: Translator, t: nat, d: ToolDelta) returns (more: seq<Event>)
    ensures Adds(s, ToolOut(s, t, d), more, SPEECH)
  {
    var (table, update) := ApplyDelta(s.table, t, d);
    var a := s.(table := table);
    var x := [];
    if update.start.Some? {
      x := ClosedAdds(a, SPEECH);
    }
    var b := if update.start.Some? then Closed(a) else a;
    var y := if update.start.Some?
             then [Start(update.start.value.index, StartToolUse(update.start.value.id, update.start.value.name, ""))]
             else [];
    var z := if update.delta.Some? then [Send(update.delta.value.index, InputJsonDelta(update.delta.value.partialJson))]
             else [];
    var c := StartOut(b, update.start);
    assert Adds(b, c, y, SPEECH) && Adds(c, FragmentOut(c, update.delta), z, SPEECH);
    AddsTwice(b, c, ToolOut(s, t, d), y, z, SPEECH);
    AddsTwice(a, b, ToolOut(s, t, d), x, y + z, SPEECH);
    more := x + (y + z);
  }

  lemma {:induction false} ToolsAdd(s: Translator, calls: seq<ToolDelta>) returns (more: seq<Event>)
    ensures Adds(s, ToolsOut(s, calls), more, SPEECH)
    decreases |calls|
  {
    if calls == [] {
      more := [];
    } else {
      var last := |calls| - 1;
      var x := ToolsAdd(s, calls[..last]);
      var y := ToolAdds(ToolsOut(s, calls[..last]), calls[last].index.GetOr(last), calls[last]);
      more := x + y;
      AddsTwice(s, ToolsOut(s, calls[..last]), ToolsOut(s, calls), x, y, SPEECH);
    }
  }

  lemma ReasoningInAdds(s: Translator, chunk: Chunk) returns (more: seq<Event>)
    ensures Adds(s, ReasoningIn(s, chunk), more, TEXT_OR_TOOL)
    ensures more == [] <==> ReasoningOf(chunk) == "" || s.policy != PlaceholderThinking
  {
    more := [];
    if ReasoningOf(chunk) != "" && s.policy == PlaceholderThinking {
      more := ThinkingAdds(s, ReasoningOf(chunk), TEXT_OR_TOOL);
    }
  }

  lemma ContentInAdds(s: Translator, chunk: Chunk) returns (more: seq<Event>)
    ensures Adds(s, ContentIn(s, chunk), more, TOOL)
    ensures chunk.content.GetOr("") == "" ==> more == []
  {
    more := [];
    if chunk.content.GetOr("") != "" {
      more := ContentAdds(s, chunk.content.GetOr(""));
    }
  }

  lemma ThreeParts(a: seq<Event>, b: seq<Event>, c: seq<Event>, d: seq<Event>)
    ensures ((a + b) + c) + d == a + (b + (c + d))
  {}

  /** What one chunk adds: first its reasoning, then its content, then its tool calls. */
  lemma ChunkOrder(s: Translator, chunk: Chunk)
    returns (reasoning: seq<Event>, content: seq<Event>, tools: seq<Event>)
    ensures ChunkIn(s, chunk).sent == s.sent + (reasoning + (content + tools))
    ensures forall e <- reasoning :: !TEXT_OR_TOOL(e)
    ensures forall e <- content :: !TOOL(e)
    ensures forall e <- tools :: !SPEECH(e)
    ensures reasoning == [] <==> ReasoningOf(chunk) == "" || s.policy != PlaceholderThinking
    ensures chunk.content.GetOr("") == "" ==> content == []
  {
    var a := ReasonNoted(s, chunk);
    reasoning := ReasoningInAdds(a, chunk);
    content := ContentInAdds(ReasoningIn(a, chunk), chunk);
    tools := ToolsAdd(ContentIn(ReasoningIn(a, chunk), chunk), chunk.toolCalls);
    ThreeParts(s.sent, reasoning, content, tools);
  }

  // ----- the order of the last stops -----

  /** The indexes that are stopped, in order. */
  function Stops(events: seq<Event>): seq<nat> {
    if events == [] then []
    else
      Stops(events[..|events| - 1]) +
      match events[|events| - 1]
      case BlockStop(Some(i)) => [i]
      case _ => []
  }

  lemma StopsMore(events: seq<Event>, e: Event)
    ensures Stops(events + [e]) == Stops(events) + match e case BlockStop(Some(i)) => [i] case _ => []
  {
    assert (events + [e])[..|events|] == events;
  }

  lemma UpdateStops(s: Translator, start: Option<ToolStart>, delta: Option<Fragment>)
    ensures var t := FragmentOut(StartOut(s, start), delta);
            Stops(t.sent) == Stops(s.sent) && t == s.(sent := t.sent)
  {
    var a := StartOut(s, start);
    if start.Some? {
      StopsMore(s.sent, Start(start.value.index, StartToolUse(start.value.id, start.value.name, "")));
    }
    if delta.Some? {
      StopsMore(a.sent, Send(delta.value.index, InputJsonDelta(delta.value.partialJson)));
    }
  }

  function At(table: Table, t: nat): nat {
    if t in table.calls then table.calls[t].anthropicIndex.GetOr(t) else t
  }

  /** The same calls, with the same indexes. */
  ghost predicate SameCalls(a: Table, b: Table) {
    a.calls.Keys == b.calls.Keys && forall t <- a.calls :: a.calls[t].anthropicIndex == b.calls[t].anthropicIndex
  }

  lemma DeltaKeepsCalls(table: Table, t: nat)
    requires t in table.calls && table.calls[t].anthropicIndex.Some?
    ensures SameCalls(table, ApplyDelta(table, t, EMPTY_DELTA).0)
  {}

  lemma FlushKeepsCalls(table: Table, t: nat)
    ensures SameCalls(table, FlushStop(table, t).0)
    ensures FlushStop(table, t).1.stopIndex in {None, Some(At(table, t))}
  {}

  /** No block is open, and every call has an index. */
  ghost predicate Closing(s: Translator) {
    s.active.None? && forall t <- s.table.calls :: s.table.calls[t].anthropicIndex.Some?
  }

  lemma EmptyDeltaStops(s: Translator, t: nat)
    requires Closing(s) && t in s.table.calls
    ensures var b := ToolOut(s, t, EMPTY_DELTA);
            && b.active.None? && SameCalls(s.table, b.table) && Stops(b.sent) == Stops(s.sent)
  {
    var (table, update) := ApplyDelta(s.table, t, EMPTY_DELTA);
    DeltaKeepsCalls(s.table, t);
    UpdateStops(s.(table := table), update.start, update.delta);
  }

  lemma LastWordStops(s: Translator, t: nat)
    ensures var (table, stop) := FlushStop(s.table, t);
            var f := StopOut(s.(table := table), stop);
            && f.active == s.active && SameCalls(s.table, f.table)
            && (Stops(f.sent) == Stops(s.sent) || Stops(f.sent) == Stops(s.sent) + [At(s.table, t)])
  {
    var (table, stop) := FlushStop(s.table, t);
    FlushKeepsCalls(s.table, t);
    var c := s.(table := table);
    UpdateStops(c, stop.start, stop.delta);
    if stop.stopIndex.Some? {
      StopsMore(FragmentOut(StartOut(c, stop.start), stop.delta).sent, Stop(stop.stopIndex.value));
    }
  }

  /** Flushing a call stops its block, or none. */
  lemma FlushOneStops(s: Translator, t: nat)
    requires Closing(s) && t in s.table.calls
    ensures var f := ToolFlushed(s, t);
            && Closing(f) && SameCalls(s.table, f.table)
            && (Stops(f.sent) == Stops(s.sent) || Stops(f.sent) == Stops(s.sent) + [At(s.table, t)])
  {
    EmptyDeltaStops(s, t);
    LastWordStops(ToolOut(s, t, EMPTY_DELTA), t);
  }

  function Indexes(table: Table, calls: seq<nat>): seq<nat> {
    if calls == [] then [] else Indexes(table, calls[..|calls| - 1]) + [At(table, calls[|calls| - 1])]
  }

  ghost predicate Rising(calls: seq<nat>) { forall i, j :: 0 <= i < j < |calls| ==> calls[i] < calls[j] }

  /** The calls in `stopped`, some of those in `order`, were stopped in this order. */
  ghost predicate StoppedInOrder(s: Translator, f: Translator, order: seq<nat>, stopped: seq<nat>) {
    && Closing(f) && SameCalls(s.table, f.table)
    && Rising(stopped) && (forall t <- stopped :: t in order)
    && Stops(f.sent) == Stops(s.sent) + Indexes(s.table, stopped)
  }

  lemma OneMoreStopped(s: Translator, b: Translator, f: Translator, front: seq<nat>, last: nat, stopped: seq<nat>)
    returns (more: seq<nat>)
    requires StoppedInOrder(s, b, front, stopped) && (forall t <- front :: t < last)
    requires Closing(f) && SameCalls(b.table, f.table) && last in s.table.calls
    requires Stops(f.sent) == Stops(b.sent) || Stops(f.sent) == Stops(b.sent) + [At(b.table, last)]
    ensures StoppedInOrder(s, f, front + [last], more)
  {
    if Stops(f.sent) == Stops(b.sent) {
      more := stopped;
    } else {
      more := stopped + [last];
      assert more[..|stopped|] == stopped;
      assert forall i :: 0 <= i < |stopped| ==> stopped[i] in front;
      Assoc(Stops(s.sent), Indexes(s.table, stopped), [At(s.table, last)]);
    }
  }

  lemma {:induction false} FlushAllStops(s: Translator, order: seq<nat>) returns (stopped: seq<nat>)
    requires Closing(s) && Rising(order) && forall t <- order :: t in s.table.calls
    ensures StoppedInOrder(s, ToolsFlushed(s, order), order, stopped)
    decreases |order|
  {
    if order == [] {
      stopped := [];
      assert Stops(s.sent) + [] == Stops(s.sent);
    } else {
      var front, last := order[..|order| - 1], order[|order| - 1];
      assert order == front + [last];
      assert last in order && forall t <- front :: t in order && t < last;
      var before := FlushAllStops(s, front);
      FlushOneStops(ToolsFlushed(s, front), last);
      stopped := OneMoreStopped(s, ToolsFlushed(s, front), ToolsFlushed(s, order), front, last, before);
    }
  }

  /** The last blocks to be stopped are those of calls, in ascending order of the calls' upstream indexes. */
  lemma CallsCloseInOrder(reasoning: bool, policy: ThinkingPolicy, id: string, model: string,
                          chunks: seq<Chunk>, outputText: Option<string>) returns (stopped: seq<nat>)
    ensures var start := NewTranslator(reasoning, policy);
            var d := Drained(RunChunks(start, id, model, chunks), id, model, outputText);
            && Rising(stopped) && (forall t <- stopped :: t in d.table.calls)
            && Stops(Translation(start, id, model, chunks, outputText)) == Stops(d.sent) + Indexes(d.table, stopped)
  {
    var start := NewTranslator(reasoning, policy);
    var s := RunChunks(start, id, model, chunks);
    ChunksRun(reasoning, policy, id, model, chunks);
    DrainedRun(s, id, model, outputText, TellAll(start.parser, chunks, policy), AllDeltas(chunks));
    var d := Drained(s, id, model, outputText);
    AscendingSound(d.table.calls.Keys);
    stopped := FlushAllStops(d, Ascending(d.table.calls.Keys));
    var t := ToolsFlushed(d, Ascending(d.table.calls.Keys));
    var reason := t.stopReason.GetOr(if t.table.calls == map[] then "end_turn" else "tool_use");
    StopsMore(t.sent, MessageDelta(Some(reason)));
    StopsMore(t.sent + [MessageDelta(Some(reason))], AnthropicEvents.MessageStop);
    assert Stops(t.sent) + [] == Stops(t.sent);
  }
}
