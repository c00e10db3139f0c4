/** The tool blocks of a translated stream belong to the tool calls of the chunks, and to nothing
    else (unigateway-protocol/src/responses/anthropic_stream.rs:533-652). */
module TranslationCalls {
  import opened Common
  import opened AnthropicEvents
  import opened ToolCalls
  import opened AnthropicStream
  import opened AnthropicStreamTheorems
  import opened TranslationTheorems

  function ToolStartOf(e: Event): set<nat> {
    match e
    case BlockStart(Some(i), Some(StartToolUse(_, _, _))) => {i}
    case _ => {}
  }

  /** The indexes at which tool blocks are started. */
  function ToolStarts(events: seq<Event>): set<nat> {
    if events == [] then {} else ToolStarts(events[..|events| - 1]) + ToolStartOf(events[|events| - 1])
  }

  lemma OneMoreStart(events: seq<Event>, e: Event)
    ensures ToolStarts(events + [e]) == ToolStarts(events) + ToolStartOf(e)
  {
    assert (events + [e])[..|events|] == events;
  }

  // ----- text and thinking start no tool blocks -----

  /** No tool block was started, and calls and stop reason are what they were. */
  predicate Kept(s: Translator, s': Translator) {
    && s'.stopReason == s.stopReason && s'.table.calls == s.table.calls && s.table.next <= s'.table.next
    && ToolStarts(s'.sent) == ToolStarts(s.sent)
  }

  lemma KeptTwice(a: Translator, b: Translator, c: Translator)
    requires Kept(a, b) && Kept(b, c)
    ensures Kept(a, c)
  {}

  /** Any other event keeps everything. */
  lemma SentKept(s: Translator, e: Event)
    requires ToolStartOf(e) == {}
    ensures Kept(s, Emitting(s, e))
  {
    OneMoreStart(s.sent, e);
  }

  lemma PreludedKept(s: Translator, id: string, model: string)
    ensures Kept(s, Preluded(s, id, model))
  {
    if !s.preludeSent {
      var hello := MessageStart(Some("msg_" + id), Some(model), Some("assistant"));
      SentKept(s, hello);
      SentKept(Emitting(s, hello), Ping);
    }
  }

  lemma ClosedKept(s: Translator)
    ensures Kept(s, Closed(s))
  {
    if s.active.Some? {
      var index := s.active.value;
      if s.activeKind == Some(ThinkingKind) && s.policy == PlaceholderThinking {
        SignedKept(s, index, PLACEHOLDER_SIGNATURE);
      } else {
        SentKept(s, Stop(index));
      }
    }
  }

  lemma SignedKept(s: Translator, index: nat, signature: string)
    ensures Kept(s, Emitting(Emitting(s, Send(index, SignatureDelta(signature))), Stop(index)))
  {
    var signed := Emitting(s, Send(index, SignatureDelta(signature)));
    SentKept(s, Send(index, SignatureDelta(signature)));
    SentKept(signed, Stop(index));
    KeptTwice(s, signed, Emitting(signed, Stop(index)));
  }

  lemma OpenedKept(s: Translator, kind: Kind)
    ensures Kept(s, Opened(s, kind))
  {
    ClosedKept(s);
    var c := Closed(s);
    var block := if kind == ThinkingKind then StartThinking("", "") else StartText("");
    SentKept(c.(table := c.table.(next := c.table.next + 1)), Start(c.table.next, block));
  }

  lemma ChunkKept(s: Translator, chunk: ReasoningText.Chunk)
    ensures Kept(s, ReasoningChunkOut(s, chunk))
  {
    var said := if chunk.Thinking? then chunk.thinking else chunk.text;
    ThinkingKept(s, said);
    TextKept(s, said);
  }

  lemma TextKept(s: Translator, text: string)
    ensures Kept(s, TextOut(s, text))
  {
    var o := Opened(s, TextKind);
    OpenedKept(s, TextKind);
    SentKept(o, Send(o.active.GetOr(0), TextDelta(text)));
    KeptTwice(s, o, TextOut(s, text));
  }

  lemma ThinkingKept(s: Translator, thinking: string)
    ensures Kept(s, ThinkingOut(s, thinking))
  {
    var o := Opened(s, ThinkingKind);
    OpenedKept(s, ThinkingKind);
    SentKept(o, Send(o.active.GetOr(0), ThinkingDelta(thinking)));
    KeptTwice(s, o, ThinkingOut(s, thinking));
  }

  lemma {:induction false} ReasoningKept(s: Translator, chunks: seq<ReasoningText.Chunk>)
    ensures Kept(s, ReasoningOut(s, chunks))
  {
    if chunks != [] {
      ReasoningKept(s, chunks[..|chunks| - 1]);
      ChunkKept(ReasoningOut(s, chunks[..|chunks| - 1]), chunks[|chunks| - 1]);
    }
  }

  lemma ContentKept(s: Translator, text: string)
    ensures Kept(s, ContentOut(s, text))
  {
    if s.parser.Some? {
      var (next, chunks) := ReasoningText.Pushed(s.parser.value, text);
      ReasoningKept(s.(parser := Some(next)), chunks);
    } else {
      TextKept(s, text);
    }
  }

  lemma DrainedKept(s: Translator, id: string, model: string, outputText: Option<string>)
    ensures Kept(s, Drained(s, id, model, outputText))
  {
    var p := Preluded(s, id, model);
    PreludedKept(s, id, model);
    ContentKept(p, outputText.GetOr(""));
    var f := if p.table.next == 0 && outputText.GetOr("") != "" then ContentOut(p, outputText.GetOr("")) else p;
    if f.parser.Some? {
      ReasoningKept(f.(parser := Some(ReasoningText.INITIAL)), ReasoningText.Finished(f.parser.value));
    }
    ClosedKept(ParserFlushed(f));
  }

  // ----- tool blocks start at the index of their call -----

  /** Every tool block lies at the content index of a call. */
  ghost predicate Owned(s: Translator) {
    Indexed(s.table) && forall k <- ToolStarts(s.sent) :: HasCall(s.table, k)
  }

  ghost predicate HasCall(table: Table, k: nat) {
    exists t :: t in table.calls && IndexOf(table, t) == k
  }

  lemma KeptOwned(s: Translator, s': Translator)
    requires Owned(s) && Kept(s, s')
    ensures Owned(s')
  {
    forall k | HasCall(s.table, k) ensures HasCall(s'.table, k) {
      var t :| t in s.table.calls && IndexOf(s.table, t) == k;
      assert t in s'.table.calls && IndexOf(s'.table, t) == k;
    }
  }

  /** Start and fragment add the block at `index`, or none. */
  lemma UpdateStarts(s: Translator, start: Option<ToolStart>, delta: Option<Fragment>)
    ensures var s' := FragmentOut(StartOut(s, start), delta);
            && s' == s.(sent := s'.sent)
            && ToolStarts(s'.sent) == ToolStarts(s.sent) + if start.Some? then {start.value.index} else {}
  {
    var b := StartOut(s, start);
    if start.Some? {
      OneMoreStart(s.sent, Start(start.value.index, StartToolUse(start.value.id, start.value.name, "")));
    }
    if delta.Some? {
      OneMoreStart(b.sent, Send(delta.value.index, InputJsonDelta(delta.value.partialJson)));
    }
  }

  /** All calls keep their index, and `t` has one. */
  ghost predicate SameIndexes(table: Table, table': Table, t: nat) {
    && t in table'.calls && Indexed(table')
    && forall k <- table.calls :: k in table'.calls && IndexOf(table', k) == IndexOf(table, k)
  }

  lemma SameCalls(table: Table, table': Table, t: nat, k: nat)
    requires SameIndexes(table, table', t) && HasCall(table, k)
    ensures HasCall(table', k)
  {
    var c :| c in table.calls && IndexOf(table, c) == k;
    assert c in table'.calls && IndexOf(table', c) == k;
  }

  lemma ToolOutOwned(s: Translator, t: nat, d: ToolDelta)
    requires Owned(s)
    ensures Owned(ToolOut(s, t, d)) && ToolOut(s, t, d).stopReason == s.stopReason
    ensures ToolOut(s, t, d).table.calls.Keys == s.table.calls.Keys + {t}
  {
    ApplyDeltaEffect(s.table, t, d);
    var (table, u) := ApplyDelta(s.table, t, d);
    UpdateOutStarts(s.(table := table), u);
    OwnedAfter(s, ToolOut(s, t, d), t);
  }

  lemma UpdateOutStarts(s: Translator, u: Update)
    ensures var s' := UpdateOut(s, u);
            && s'.table == s.table && s'.stopReason == s.stopReason
            && ToolStarts(s'.sent) == ToolStarts(s.sent) + if u.start.Some? then {u.start.value.index} else {}
  {
    ClosedKept(s);
    UpdateStarts(if u.start.Some? then Closed(s) else s, u.start, u.delta);
  }

  /** Tool blocks were started at the index of `t` at most. */
  lemma OwnedAfter(s: Translator, s': Translator, t: nat)
    requires Owned(s) && SameIndexes(s.table, s'.table, t)
    requires ToolStarts(s'.sent) <= ToolStarts(s.sent) + {IndexOf(s'.table, t)}
    ensures Owned(s')
  {
    forall k | k in ToolStarts(s'.sent) ensures HasCall(s'.table, k) {
      if k in ToolStarts(s.sent) {
        SameCalls(s.table, s'.table, t, k);
      } else {
        assert t in s'.table.calls && IndexOf(s'.table, t) == k;
      }
    }
  }

  lemma {:induction false} ToolsOutOwned(s: Translator, calls: seq<ToolDelta>)
    requires Owned(s)
    ensures Owned(ToolsOut(s, calls)) && ToolsOut(s, calls).stopReason == s.stopReason
    decreases |calls|
  {
    if calls != [] {
      var last := |calls| - 1;
      ToolsOutOwned(s, calls[..last]);
      ToolOutOwned(ToolsOut(s, calls[..last]), calls[last].index.GetOr(last), calls[last]);
    }
  }

  lemma FlushStopIndexes(table: Table, t: nat)
    requires Indexed(table) && t in table.calls
    ensures var (table', u) := FlushStop(table, t);
            && SameIndexes(table, table', t) && table'.calls.Keys == table.calls.Keys
            && (u.start.Some? ==> u.start.value.index == IndexOf(table, t))
  {}

  lemma ToolFlushedOwned(s: Translator, t: nat)
    requires Owned(s)
    ensures Owned(ToolFlushed(s, t)) && ToolFlushed(s, t).stopReason == s.stopReason
  {
    ToolOutOwned(s, t, EMPTY_DELTA);
    StoppedOwned(ToolOut(s, t, EMPTY_DELTA), t);
  }

  lemma StoppedOwned(m: Translator, t: nat)
    requires Owned(m) && t in m.table.calls
    ensures var (table, u) := FlushStop(m.table, t);
            var s' := StopOut(m.(table := table), u);
            Owned(s') && s'.stopReason == m.stopReason
  {
    FlushStopIndexes(m.table, t);
    var (table, u) := FlushStop(m.table, t);
    var f := m.(table := table);
    UpdateStarts(f, u.start, u.delta);
    OneMoreStart(FragmentOut(StartOut(f, u.start), u.delta).sent, Stop(u.stopIndex.GetOr(0)));
    OwnedAfter(m, StopOut(f, u), t);
  }

  lemma {:induction false} ToolsFlushedOwned(s: Translator, order: seq<nat>)
    requires Owned(s)
    ensures Owned(ToolsFlushed(s, order)) && ToolsFlushed(s, order).stopReason == s.stopReason
    decreases |order|
  {
    if order != [] {
      ToolsFlushedOwned(s, order[..|order| - 1]);
      ToolFlushedOwned(ToolsFlushed(s, order[..|order| - 1]), order[|order| - 1]);
    }
  }

  /** One chunk, with the stop reason that it leaves. */
  lemma ChunkOwned(s: Translator, chunk: Chunk)
    requires Owned(s)
    ensures Owned(ChunkIn(s, chunk))
    ensures ChunkIn(s, chunk).stopReason ==
            if chunk.finishReason.GetOr("") == "" then s.stopReason
            else Some(MapFinishReason(chunk.finishReason.GetOr("")))
  {
    var a := ReasonNoted(s, chunk);
    ThinkingKept(a, ReasoningOf(chunk));
    KeptOwned(a, ReasoningIn(a, chunk));
    var b := ReasoningIn(a, chunk);
    ContentKept(b, chunk.content.GetOr(""));
    KeptOwned(b, ContentIn(b, chunk));
    ToolsOutOwned(ContentIn(b, chunk), chunk.toolCalls);
  }

  /** The last finish reason that is not empty. */
  function LastReason(chunks: seq<Chunk>): Option<string> {
    if chunks == [] then None
    else
      var last := chunks[|chunks| - 1].finishReason;
      if last.GetOr("") != "" then last else LastReason(chunks[..|chunks| - 1])
  }

  function Mapped(reason: Option<string>): Option<string> {
    if reason.None? then None else Some(MapFinishReason(reason.value))
  }

  lemma {:induction false} ChunksOwned(reasoning: bool, policy: ThinkingPolicy, id: string, model: string,
                                       chunks: seq<Chunk>)
    ensures var s := RunChunks(NewTranslator(reasoning, policy), id, model, chunks);
            Owned(s) && s.stopReason == Mapped(LastReason(chunks))
  {
    if chunks != [] {
      var front := chunks[..|chunks| - 1];
      ChunksOwned(reasoning, policy, id, model, front);
      var b := RunChunks(NewTranslator(reasoning, policy), id, model, front);
      PreludedKept(b, id, model);
      KeptOwned(b, Preluded(b, id, model));
      ChunkOwned(Preluded(b, id, model), chunks[|chunks| - 1]);
    }
  }

  /** In every translated stream each tool block lies at the content index of a tool call, and the
      translator ends with the mapped last finish reason. */
  lemma ToolBlocksAreCalls(reasoning: bool, policy: ThinkingPolicy, id: string, model: string,
                           chunks: seq<Chunk>, outputText: Option<string>)
    ensures var start := NewTranslator(reasoning, policy);
            var t := AllFlushed(start, id, model, chunks, outputText);
            && Indexed(t.table)
            && (forall k <- ToolStarts(Translation(start, id, model, chunks, outputText)) :: HasCall(t.table, k))
            && t.stopReason == Mapped(LastReason(chunks))
  {
    var start := NewTranslator(reasoning, policy);
    var s := RunChunks(start, id, model, chunks);
    ChunksOwned(reasoning, policy, id, model, chunks);
    DrainedKept(s, id, model, outputText);
    var d := Drained(s, id, model, outputText);
    KeptOwned(s, d);
    ToolsFlushedOwned(d, Ascending(d.table.calls.Keys));
    var t := AllFlushed(start, id, model, chunks, outputText);
    EndStarts(t.sent, t.stopReason.GetOr(if t.table.calls == map[] then "end_turn" else "tool_use"));
  }

  lemma EndStarts(sent: seq<Event>, reason: string)
    ensures ToolStarts(sent + [MessageDelta(Some(reason))] + [AnthropicEvents.MessageStop]) == ToolStarts(sent)
  {
    OneMoreStart(sent, MessageDelta(Some(reason)));
    OneMoreStart(sent + [MessageDelta(Some(reason))], AnthropicEvents.MessageStop);
  }

  // ----- calls and deltas -----

  /** There are calls exactly when a chunk mentions one. */
  lemma CallsIffDeltas(table: Table, deltas: seq<Addressed>)
    requires forall t: nat :: t in table.calls <==> Only(t, deltas) != []
    ensures table.calls == map[] <==> deltas == []
  {
    if deltas != [] {
      assert Only(deltas[|deltas| - 1].0, deltas) != [];
    } else {
      assert forall t: nat :: t !in table.calls;
    }
  }
}
