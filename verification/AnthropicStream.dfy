/** Translating a stream of OpenAI chat chunks into Anthropic events
    (unigateway-protocol/src/responses/anthropic_stream.rs): what each step does. */
module AnthropicStream {
  import opened Common
  import opened AnthropicEvents
  import opened ToolCalls
  import ReasoningText

  /** A JSON member that may be missing or not a string. */
  datatype Field = Absent | NotAString | Str(value: string)

  /** What the translator reads of an OpenAI chunk's first choice. */
  datatype Chunk = Chunk(finishReason: Option<string>, reasoningContent: Field, thinking: Field,
                         content: Option<string>, toolCalls: seq<ToolDelta>)

  datatype ThinkingPolicy = Structured | OmitThinking | PlaceholderThinking

  const PLACEHOLDER_SIGNATURE := "EXTENDED_THINKING_PLACEHOLDER_SIG"

  function MapFinishReason(reason: string): string {
    match reason
    case "stop" => "end_turn"
    case "eos" => "end_turn"
    case "length" => "max_tokens"
    case "tool_calls" => "tool_use"
    case "function_call" => "tool_use"
    case "tool_use" => "tool_use"
    case _ => "end_turn"
  }

  /** The reasoning text of a chunk: `thinking` counts only when `reasoning_content` is missing. */
  function ReasoningOf(chunk: Chunk): string {
    match if chunk.reasoningContent.Absent? then chunk.thinking else chunk.reasoningContent
    case Str(text) => text
    case _ => ""
  }

  /** The translator's fields, with everything sent downstream so far. */
  datatype Translator = Translator(preludeSent: bool, active: Option<nat>, activeKind: Option<Kind>,
                                   stopReason: Option<string>, table: Table,
                                   parser: Option<ReasoningText.ParseState>, policy: ThinkingPolicy,
                                   sent: seq<Event>)

  function NewTranslator(reasoning: bool, policy: ThinkingPolicy): Translator {
    Translator(false, None, None, None, Table(map[], 0),
               if reasoning then Some(ReasoningText.INITIAL) else None, policy, [])
  }

  function Emitting(s: Translator, e: Event): Translator { s.(sent := s.sent + [e]) }

  // ----- the steps -----

  function Preluded(s: Translator, id: string, model: string): Translator {
    if s.preludeSent then s
    else
      Emitting(Emitting(s, MessageStart(Some("msg_" + id), Some(model), Some("assistant"))), Ping).(preludeSent := true)
  }

  function Closed(s: Translator): Translator {
    if s.active.None? then s
    else
      var index := s.active.value;
      var signed := if s.activeKind == Some(ThinkingKind) && s.policy == PlaceholderThinking
                    then Emitting(s, Send(index, SignatureDelta(PLACEHOLDER_SIGNATURE))) else s;
      Emitting(signed, Stop(index)).(active := None, activeKind := None)
  }

  /** Make sure a block of the given kind is the open one. */
  function Opened(s: Translator, kind: Kind): Translator {
    if s.active.Some? && s.activeKind == Some(kind) then s
    else Begun(Closed(s), kind)
  }

  function Begun(s: Translator, kind: Kind): Translator {
    var index := s.table.next;
    var block := if kind == ThinkingKind then StartThinking("", "") else StartText("");
    Emitting(s.(table := s.table.(next := index + 1)), Start(index, block))
    .(active := Some(index), activeKind := Some(kind))
  }

  function TextOut(s: Translator, text: string): Translator {
    var o := Opened(s, TextKind);
    Emitting(o, Send(o.active.GetOr(0), TextDelta(text)))
  }

  function ThinkingOut(s: Translator, thinking: string): Translator {
    var o := Opened(s, ThinkingKind);
    Emitting(o, Send(o.active.GetOr(0), ThinkingDelta(thinking)))
  }

  function ReasoningChunkOut(s: Translator, chunk: ReasoningText.Chunk): Translator {
    match chunk
    case Thinking(t) => if s.policy == PlaceholderThinking then ThinkingOut(s, t) else TextOut(s, t)
    case Text(t) => TextOut(s, t)
  }

  function ReasoningOut(s: Translator, chunks: seq<ReasoningText.Chunk>): Translator {
    if chunks == [] then s
    else ReasoningChunkOut(ReasoningOut(s, chunks[..|chunks| - 1]), chunks[|chunks| - 1])
  }

  function ContentOut(s: Translator, text: string): Translator {
    match s.parser
    case None => TextOut(s, text)
    case Some(state) =>
      var (next, chunks) := ReasoningText.Pushed(state, text);
      ReasoningOut(s.(parser := Some(next)), chunks)
  }

  function ParserFlushed(s: Translator): Translator {
    match s.parser
    case None => s
    case Some(state) => ReasoningOut(s.(parser := Some(ReasoningText.INITIAL)), ReasoningText.Finished(state))
  }

  function StartOut(s: Translator, start: Option<ToolStart>): Translator {
    if start.None? then s
    else Emitting(s, Start(start.value.index, StartToolUse(start.value.id, start.value.name, "")))
  }

  function FragmentOut(s: Translator, delta: Option<Fragment>): Translator {
    if delta.None? then s else Emitting(s, Send(delta.value.index, InputJsonDelta(delta.value.partialJson)))
  }

  function UpdateOut(s: Translator, update: Update): Translator {
    FragmentOut(StartOut(if update.start.Some? then Closed(s) else s, update.start), update.delta)
  }

  function ToolOut(s: Translator, toolIndex: nat, d: ToolDelta): Translator {
    var (table, update) := ApplyDelta(s.table, toolIndex, d);
    UpdateOut(s.(table := table), update)
  }

  function ToolsOut(s: Translator, calls: seq<ToolDelta>): Translator
    decreases |calls|
  {
    if calls == [] then s
    else
      var last := |calls| - 1;
      ToolOut(ToolsOut(s, calls[..last]), calls[last].index.GetOr(last), calls[last])
  }

  function ReasoningIn(s: Translator, chunk: Chunk): Translator {
    if ReasoningOf(chunk) != "" && s.policy == PlaceholderThinking then ThinkingOut(s, ReasoningOf(chunk)) else s
  }

  function ContentIn(s: Translator, chunk: Chunk): Translator {
    if chunk.content.GetOr("") != "" then ContentOut(s, chunk.content.GetOr("")) else s
  }

  function ReasonNoted(s: Translator, chunk: Chunk): Translator {
    if chunk.finishReason.GetOr("") == "" then s
    else s.(stopReason := Some(MapFinishReason(chunk.finishReason.GetOr(""))))
  }

  function ChunkIn(s: Translator, chunk: Chunk): Translator {
    ToolsOut(ContentIn(ReasoningIn(ReasonNoted(s, chunk), chunk), chunk), chunk.toolCalls)
  }

  function StopOut(s: Translator, update: StopUpdate): Translator {
    if update.stopIndex.None? then s
    else Emitting(FragmentOut(StartOut(s, update.start), update.delta), Stop(update.stopIndex.value))
  }

  function ToolFlushed(s: Translator, toolIndex: nat): Translator {
    var t := ToolOut(s, toolIndex, EMPTY_DELTA);
    var (table, update) := FlushStop(t.table, toolIndex);
    StopOut(t.(table := table), update)
  }

  function ToolsFlushed(s: Translator, toolIndexes: seq<nat>): Translator
    decreases |toolIndexes|
  {
    if toolIndexes == [] then s
    else ToolFlushed(ToolsFlushed(s, toolIndexes[..|toolIndexes| - 1]), toolIndexes[|toolIndexes| - 1])
  }

  function RunChunks(s: Translator, id: string, model: string, chunks: seq<Chunk>): Translator
    decreases |chunks|
  {
    if chunks == [] then s
    else
      ChunkIn(Preluded(RunChunks(s, id, model, chunks[..|chunks| - 1]), id, model), chunks[|chunks| - 1])
  }

  /** From the end of the stream to the point where only the closing events are missing. */
  function Drained(s: Translator, id: string, model: string, outputText: Option<string>): Translator {
    var p := Preluded(s, id, model);
    var f := if p.table.next == 0 && outputText.GetOr("") != "" then ContentOut(p, outputText.GetOr("")) else p;
    Closed(ParserFlushed(f))
  }

  function Completed(s: Translator, id: string, model: string, outputText: Option<string>): Translator {
    var d := Drained(s, id, model, outputText);
    var t := ToolsFlushed(d, Ascending(d.table.calls.Keys));
    var reason := t.stopReason.GetOr(if t.table.calls == map[] then "end_turn" else "tool_use");
    Emitting(Emitting(t, MessageDelta(Some(reason))), AnthropicEvents.MessageStop)
  }

  /** The events of a stream that ends without an error. */
  function Translation(start: Translator, id: string, model: string, chunks: seq<Chunk>,
                       outputText: Option<string>): seq<Event>
  {
    Completed(RunChunks(start, id, model, chunks), id, model, outputText).sent
  }

  /** The translator as the source runs it; `sent` stands for the channel to the client. */
  class AnthropicOpenAiStreamState {
    var preludeSent: bool
    var activeContentBlockIndex: Option<nat>
    var activeContentBlockType: Option<Kind>
    var stopReason: Option<string>
    const pendingToolCalls: PendingToolCalls
    const reasoningTextParser: ReasoningText.ReasoningTextStreamParser?
    const thinkingOutputPolicy: ThinkingPolicy
    var sent: seq<Event>

    constructor (reasoning: bool, policy: ThinkingPolicy)
      ensures State() == NewTranslator(reasoning, policy)
      ensures fresh(pendingToolCalls) && (reasoningTextParser != null ==> fresh(reasoningTextParser))
    {
      preludeSent, activeContentBlockIndex, activeContentBlockType := false, None, None;
      stopReason, sent := None, [];
      pendingToolCalls := new PendingToolCalls();
      if reasoning {
        reasoningTextParser := new ReasoningText.ReasoningTextStreamParser();
      } else {
        reasoningTextParser := null;
      }
      thinkingOutputPolicy := policy;
    }

    function State(): Translator
      reads this, pendingToolCalls, reasoningTextParser
    {
      Translator(preludeSent, activeContentBlockIndex, activeContentBlockType, stopReason,
                 pendingToolCalls.State(),
                 if reasoningTextParser == null then None else Some(reasoningTextParser.state),
                 thinkingOutputPolicy, sent)
    }

    method EmitEvent(e: Event)
      modifies this`sent
      ensures State() == Emitting(old(State()), e)
    {
      sent := sent + [e];
    }

    method EnsurePrelude(id: string, model: string)
      modifies this
      ensures State() == Preluded(old(State()), id, model)
    {
      if preludeSent { return; }
      EmitEvent(MessageStart(Some("msg_" + id), Some(model), Some("assistant")));
      EmitEvent(Ping);
      preludeSent := true;
    }

    method CloseActiveContentBlock()
      modifies this
      ensures State() == Closed(old(State()))
    {
      if activeContentBlockIndex.None? { return; }
      var index := activeContentBlockIndex.value;
      var activeType := activeContentBlockType;
      activeContentBlockIndex, activeContentBlockType := None, None;
      if activeType == Some(ThinkingKind) && thinkingOutputPolicy == PlaceholderThinking {
        EmitEvent(Send(index, SignatureDelta(PLACEHOLDER_SIGNATURE)));
      }
      EmitEvent(Stop(index));
    }

    method EmitContentBlockStart(kind: Kind) returns (index: nat)
      modifies this, pendingToolCalls
      ensures State() == Opened(old(State()), kind)
      ensures activeContentBlockIndex == Some(index)
    {
      if activeContentBlockIndex.Some? && activeContentBlockType == Some(kind) {
        return activeContentBlockIndex.value;
      }
      CloseActiveContentBlock();
      index := BeginContentBlock(kind);
    }

    method BeginContentBlock(kind: Kind) returns (index: nat)
      modifies this, pendingToolCalls
      ensures State() == Begun(old(State()), kind)
      ensures activeContentBlockIndex == Some(index)
    {
      index := pendingToolCalls.nextContentIndex;
      pendingToolCalls.nextContentIndex := pendingToolCalls.nextContentIndex + 1;
      EmitEvent(Start(index, if kind == ThinkingKind then StartThinking("", "") else StartText("")));
      activeContentBlockIndex, activeContentBlockType := Some(index), Some(kind);
    }

    method EmitTextDelta(text: string)
      modifies this, pendingToolCalls
      ensures State() == TextOut(old(State()), text)
    {
      var index := EmitContentBlockStart(TextKind);
      EmitEvent(Send(index, TextDelta(text)));
    }

    method EmitThinkingDelta(thinking: string)
      modifies this, pendingToolCalls
      ensures State() == ThinkingOut(old(State()), thinking)
    {
      var index := EmitContentBlockStart(ThinkingKind);
      EmitEvent(Send(index, ThinkingDelta(thinking)));
    }

    method EmitReasoningTextChunks(chunks: seq<ReasoningText.Chunk>)
      modifies this, pendingToolCalls
      ensures State() == ReasoningOut(old(State()), chunks)
    {
      for i := 0 to |chunks|
        invariant State() == ReasoningOut(old(State()), chunks[..i])
      {
        assert chunks[..i + 1][..i] == chunks[..i];
        match chunks[i] {
          case Thinking(thinking) =>
            if thinkingOutputPolicy == PlaceholderThinking {
              EmitThinkingDelta(thinking);
            } else {
              EmitTextDelta(thinking);
            }
          case Text(text) => EmitTextDelta(text);
        }
      }
      assert chunks[..|chunks|] == chunks;
    }

    method EmitOpenAiTextDelta(text: string)
      modifies this, pendingToolCalls, reasoningTextParser
      ensures State() == ContentOut(old(State()), text)
    {
      if reasoningTextParser == null {
        EmitTextDelta(text);
      } else {
        var chunks := reasoningTextParser.Push(text);
        EmitReasoningTextChunks(chunks);
      }
    }

    method FlushReasoningTextParser()
      modifies this, pendingToolCalls, reasoningTextParser
      ensures State() == ParserFlushed(old(State()))
    {
      if reasoningTextParser != null {
        var chunks := reasoningTextParser.Finish();
        EmitReasoningTextChunks(chunks);
      }
    }

    method EmitToolStart(start: Option<ToolStart>)
      modifies this`sent
      ensures State() == StartOut(old(State()), start)
    {
      if start.Some? {
        EmitEvent(Start(start.value.index, StartToolUse(start.value.id, start.value.name, "")));
      }
    }

    method EmitFragment(delta: Option<Fragment>)
      modifies this`sent
      ensures State() == FragmentOut(old(State()), delta)
    {
      if delta.Some? {
        EmitEvent(Send(delta.value.index, InputJsonDelta(delta.value.partialJson)));
      }
    }

    method ApplyOpenAiToolCallDelta(toolIndex: nat, toolCall: ToolDelta)
      modifies this, pendingToolCalls
      ensures State() == ToolOut(old(State()), toolIndex, toolCall)
    {
      ghost var s := State();
      var update := pendingToolCalls.ApplyDeltaUpdate(toolIndex, toolCall);
      assert State() == s.(table := ApplyDelta(s.table, toolIndex, toolCall).0);
      EmitUpdate(update);
    }

    method EmitUpdate(update: Update)
      modifies this
      ensures State() == UpdateOut(old(State()), update)
    {
      if update.start.Some? {
        CloseActiveContentBlock();
      }
      EmitToolStart(update.start);
      EmitFragment(update.delta);
    }

    method ProcessOpenAiChunk(chunk: Chunk)
      modifies this, pendingToolCalls, reasoningTextParser
      ensures State() == ChunkIn(old(State()), chunk)
    {
      if chunk.finishReason.GetOr("") != "" {
        stopReason := Some(MapFinishReason(chunk.finishReason.GetOr("")));
      }
      assert State() == ReasonNoted(old(State()), chunk);
      ghost var noted := State();
      var thinking := ReasoningOf(chunk);
      if thinking != "" && thinkingOutputPolicy == PlaceholderThinking {
        EmitThinkingDelta(thinking);
      }
      assert State() == ReasoningIn(noted, chunk);
      if chunk.content.GetOr("") != "" {
        EmitOpenAiTextDelta(chunk.content.GetOr(""));
      }
      ProcessToolCalls(chunk.toolCalls);
    }

    method ProcessToolCalls(toolCalls: seq<ToolDelta>)
      modifies this, pendingToolCalls
      ensures State() == ToolsOut(old(State()), toolCalls)
    {
      for fallback := 0 to |toolCalls|
        invariant State() == ToolsOut(old(State()), toolCalls[..fallback])
      {
        assert toolCalls[..fallback + 1][..fallback] == toolCalls[..fallback];
        ApplyOpenAiToolCallDelta(toolCalls[fallback].index.GetOr(fallback), toolCalls[fallback]);
      }
      assert toolCalls[..|toolCalls|] == toolCalls;
    }

    method EmitStopUpdate(update: StopUpdate)
      modifies this`sent
      ensures State() == StopOut(old(State()), update)
    {
      if update.stopIndex.Some? {
        EmitToolStart(update.start);
        EmitFragment(update.delta);
        EmitEvent(Stop(update.stopIndex.value));
      }
    }

    method FlushPendingToolCallStop(toolIndex: nat)
      modifies this, pendingToolCalls
      ensures State() == ToolFlushed(old(State()), toolIndex)
    {
      ApplyOpenAiToolCallDelta(toolIndex, EMPTY_DELTA);
      ghost var t := State();
      var update := pendingToolCalls.FlushStopUpdate(toolIndex);
      assert State() == t.(table := FlushStop(t.table, toolIndex).0);
      EmitStopUpdate(update);
    }

    method FlushPendingToolCallStops()
      modifies this, pendingToolCalls
      ensures State() == ToolsFlushed(old(State()), Ascending(old(pendingToolCalls.calls).Keys))
    {
      var toolIndexes := Ascending(pendingToolCalls.calls.Keys);
      for i := 0 to |toolIndexes|
        invariant State() == ToolsFlushed(old(State()), toolIndexes[..i])
      {
        assert toolIndexes[..i + 1][..i] == toolIndexes[..i];
        FlushPendingToolCallStop(toolIndexes[i]);
      }
      assert toolIndexes[..|toolIndexes|] == toolIndexes;
    }

    /** The whole drive of a stream whose chunks all arrive and whose completion succeeds. */
    method Drive(id: string, model: string, chunks: seq<Chunk>, outputText: Option<string>)
      modifies this, pendingToolCalls, reasoningTextParser
      ensures sent == Translation(old(State()), id, model, chunks, outputText)
    {
      for i := 0 to |chunks|
        invariant State() == RunChunks(old(State()), id, model, chunks[..i])
      {
        assert chunks[..i + 1][..i] == chunks[..i];
        EnsurePrelude(id, model);
        ProcessOpenAiChunk(chunks[i]);
      }
      assert chunks[..|chunks|] == chunks;
      EnsurePrelude(id, model);
      if pendingToolCalls.nextContentIndex == 0 && outputText.GetOr("") != "" {
        EmitOpenAiTextDelta(outputText.GetOr(""));
      }
      FlushReasoningTextParser();
      CloseActiveContentBlock();
      FlushPendingToolCallStops();
      var reason := stopReason.GetOr(if pendingToolCalls.calls == map[] then "end_turn" else "tool_use");
      EmitEvent(MessageDelta(Some(reason)));
      EmitEvent(AnthropicEvents.MessageStop);
    }
  }
}
