/** From Anthropic stream events to OpenAI chat chunks
    (unigateway-protocol/src/responses/openai_chat.rs), without a reasoning text encoding. */
module OpenAiChat {
  import opened Common
  import opened AnthropicEvents
  import opened WellFormed
  import A = Aggregator

  datatype Body =
    | Role
    | Content(text: string)
    | Reasoning(thinking: string)
    | ToolCallStart(index: nat, id: string, name: string)
    | ToolCallArguments(index: nat, arguments: string)
    | Finish(reason: string)

  datatype Chunk = Chunk(model: string, body: Body)

  function MapStopReason(reason: string): string {
    match reason
    case "end_turn" => "stop"
    case "stop_sequence" => "stop"
    case "max_tokens" => "length"
    case "tool_use" => "tool_calls"
    case _ => "stop"
  }

  /** The finish reason that belongs to a stop reason, or to the lack of one. */
  function FinishReason(stopReason: Option<string>, anyToolUse: bool): string {
    match stopReason
    case Some(reason) => MapStopReason(reason)
    case None => if anyToolUse then "tool_calls" else "stop"
  }

  // ----- the adapter -----

  datatype Adapter = Adapter(model: Option<string>, sentRole: bool, toolUses: map<nat, nat>,
                             nextTool: nat, stopReason: Option<string>)

  const NEW := Adapter(None, false, map[], 0, None)

  function Say(a: Adapter, body: Body): seq<Chunk> { [Chunk(a.model.GetOr(""), body)] }

  /** One chunk, preceded by the role if that was never sent. */
  function SayAfterRole(a: Adapter, body: Body): (Adapter, seq<Chunk>) {
    (a.(sentRole := true), if a.sentRole then Say(a, body) else Say(a, Role) + Say(a, body))
  }

  function ToolStarted(a: Adapter, index: Option<nat>, id: string, name: string): (Adapter, seq<Chunk>) {
    SayAfterRole(a.(toolUses := a.toolUses[index.GetOr(a.nextTool) := a.nextTool], nextTool := a.nextTool + 1),
                 ToolCallStart(a.nextTool, id, name))
  }

  function ToolIndex(toolUses: map<nat, nat>, index: nat): nat {
    if index in toolUses then toolUses[index] else index
  }

  function DeltaAdapted(a: Adapter, index: Option<nat>, delta: Delta): (Adapter, seq<Chunk>) {
    match delta
    case TextDelta(text) => SayAfterRole(a, Content(text))
    case ThinkingDelta(thinking) => SayAfterRole(a, Reasoning(thinking))
    case InputJsonDelta(json) =>
      (a, if json == "" then [] else Say(a, ToolCallArguments(ToolIndex(a.toolUses, index.GetOr(0)), json)))
    case _ => (a, [])
  }

  function Adapted(a: Adapter, e: Event): (Adapter, seq<Chunk>) {
    match e
    case MessageStart(_, model, _) =>
      var b := a.(model := model);
      (b.(sentRole := true), if a.sentRole then [] else Say(b, Role))
    case BlockStart(index, Some(StartToolUse(id, name, _))) => ToolStarted(a, index, id, name)
    case BlockDelta(index, Some(delta)) => DeltaAdapted(a, index, delta)
    case MessageDelta(reason) => (if reason.Some? then a.(stopReason := reason) else a, [])
    case MessageStop => (a, Say(a, Finish(FinishReason(a.stopReason, a.toolUses != map[]))))
    case _ => (a, [])
  }

  function AdaptAll(events: seq<Event>): (Adapter, seq<Chunk>) {
    if events == [] then (NEW, [])
    else
      var (a, chunks) := AdaptAll(events[..|events| - 1]);
      var (b, more) := Adapted(a, events[|events| - 1]);
      (b, chunks + more)
  }

  class OpenAiChatStreamAdapter {
    var model: Option<string>
    var sentRoleChunk: bool
    var pendingToolUses: map<nat, nat>
    var nextOpenaiToolIndex: nat
    var stopReason: Option<string>

    constructor ()
      ensures State() == NEW
    {
      model, sentRoleChunk, pendingToolUses, nextOpenaiToolIndex, stopReason := None, false, map[], 0, None;
    }

    function State(): Adapter
      reads this
    {
      Adapter(model, sentRoleChunk, pendingToolUses, nextOpenaiToolIndex, stopReason)
    }

    method RoleIfNeeded() returns (chunks: seq<Chunk>)
      modifies this`sentRoleChunk
      ensures sentRoleChunk
      ensures chunks == if old(sentRoleChunk) then [] else Say(State(), Role)
    {
      chunks := [];
      if !sentRoleChunk {
        sentRoleChunk := true;
        chunks := [Chunk(model.GetOr(""), Role)];
      }
    }

    method EmitAfterRole(body: Body) returns (chunks: seq<Chunk>)
      modifies this`sentRoleChunk
      ensures (State(), chunks) == SayAfterRole(old(State()), body)
    {
      chunks := RoleIfNeeded();
      assert [] + Say(State(), body) == Say(State(), body);
      chunks := chunks + [Chunk(model.GetOr(""), body)];
    }

    method StartToolUse(index: Option<nat>, id: string, name: string) returns (chunks: seq<Chunk>)
      modifies this
      ensures (State(), chunks) == ToolStarted(old(State()), index, id, name)
    {
      var anthropicIndex := index.GetOr(nextOpenaiToolIndex);
      var openaiIndex := nextOpenaiToolIndex;
      nextOpenaiToolIndex := nextOpenaiToolIndex + 1;
      pendingToolUses := pendingToolUses[anthropicIndex := openaiIndex];
      chunks := EmitAfterRole(ToolCallStart(openaiIndex, id, name));
    }

    method ApplyDelta(index: Option<nat>, delta: Delta) returns (chunks: seq<Chunk>)
      modifies this
      ensures (State(), chunks) == DeltaAdapted(old(State()), index, delta)
    {
      chunks := [];
      match delta {
        case TextDelta(text) => chunks := EmitAfterRole(Content(text));
        case ThinkingDelta(thinking) => chunks := EmitAfterRole(Reasoning(thinking));
        case InputJsonDelta(json) =>
          if json != "" {
            var anthropicIndex := index.GetOr(0);
            var openaiIndex :=
              if anthropicIndex in pendingToolUses then pendingToolUses[anthropicIndex] else anthropicIndex;
            chunks := [Chunk(model.GetOr(""), ToolCallArguments(openaiIndex, json))];
          }
        case _ =>
      }
    }

    method ChunksFromEvent(e: Event) returns (chunks: seq<Chunk>)
      modifies this
      ensures (State(), chunks) == Adapted(old(State()), e)
    {
      chunks := [];
      match e {
        case MessageStart(_, model_, _) =>
          model := model_;
          chunks := RoleIfNeeded();
        case BlockStart(index, Some(StartToolUse(id, name, _))) => chunks := StartToolUse(index, id, name);
        case BlockDelta(index, Some(delta)) => chunks := ApplyDelta(index, delta);
        case MessageDelta(reason) =>
          if reason.Some? { stopReason := reason; }
        case MessageStop =>
          var finish := FinishReason(stopReason, pendingToolUses != map[]);
          chunks := [Chunk(model.GetOr(""), Finish(finish))];
        case _ =>
      }
    }

    /** A whole stream of events, one after the other. */
    method Drive(events: seq<Event>) returns (chunks: seq<Chunk>)
      requires State() == NEW
      modifies this
      ensures (State(), chunks) == AdaptAll(events)
    {
      chunks := [];
      for i := 0 to |events|
        invariant (State(), chunks) == AdaptAll(events[..i])
      {
        assert events[..i + 1][..i] == events[..i];
        var more := ChunksFromEvent(events[i]);
        chunks := chunks + more;
      }
      assert events[..|events|] == events;
    }
  }

  // ----- the client at the other end -----

  datatype Call = Call(id: string, name: string, arguments: string)

  /** What an OpenAI client puts together from the chunks. */
  datatype Reply = Reply(text: string, thinking: string, calls: map<nat, Call>, finish: Option<string>)

  const SILENCE := Reply("", "", map[], None)

  function CallAt(calls: map<nat, Call>, index: nat): Call {
    if index in calls then calls[index] else Call("", "", "")
  }

  function Heard(r: Reply, body: Body): Reply {
    match body
    case Role => r
    case Content(text) => r.(text := r.text + text)
    case Reasoning(thinking) => r.(thinking := r.thinking + thinking)
    case ToolCallStart(index, id, name) =>
      r.(calls := r.calls[index := Call(id, name, CallAt(r.calls, index).arguments)])
    case ToolCallArguments(index, json) =>
      var call := CallAt(r.calls, index);
      r.(calls := r.calls[index := call.(arguments := call.arguments + json)])
    case Finish(reason) => r.(finish := Some(reason))
  }

  function Listen(chunks: seq<Chunk>): Reply {
    if chunks == [] then SILENCE else Heard(Listen(chunks[..|chunks| - 1]), chunks[|chunks| - 1].body)
  }

  lemma ListenOne(chunks: seq<Chunk>, chunk: Chunk)
    ensures Listen(chunks + [chunk]) == Heard(Listen(chunks), chunk.body)
  {
    assert (chunks + [chunk])[..|chunks|] == chunks;
  }

  /** What one event makes of what the client holds. */
  function Effect(a: Adapter, r: Reply, e: Event): Reply {
    match e
    case BlockStart(_, Some(StartToolUse(id, name, _))) => Heard(r, ToolCallStart(a.nextTool, id, name))
    case BlockDelta(_, Some(TextDelta(text))) => Heard(r, Content(text))
    case BlockDelta(_, Some(ThinkingDelta(thinking))) => Heard(r, Reasoning(thinking))
    case BlockDelta(index, Some(InputJsonDelta(json))) =>
      if json == "" then r else Heard(r, ToolCallArguments(ToolIndex(a.toolUses, index.GetOr(0)), json))
    case MessageStop => Heard(r, Finish(FinishReason(a.stopReason, a.toolUses != map[])))
    case _ => r
  }

  lemma SayHeard(a: Adapter, chunks: seq<Chunk>, body: Body)
    ensures Listen(chunks + SayAfterRole(a, body).1) == Heard(Listen(chunks), body)
  {
    var role, said := Chunk(a.model.GetOr(""), Role), Chunk(a.model.GetOr(""), body);
    ListenOne(chunks, role);
    ListenOne(chunks, said);
    ListenOne(chunks + [role], said);
    Assoc(chunks, [role], [said]);
  }

  lemma EffectHeard(a: Adapter, chunks: seq<Chunk>, e: Event)
    ensures Listen(chunks + Adapted(a, e).1) == Effect(a, Listen(chunks), e)
  {
    assert chunks + [] == chunks;
    match e {
      case BlockStart(_, Some(StartToolUse(id, name, _))) =>
        SayHeard(a, chunks, ToolCallStart(a.nextTool, id, name));
      case BlockDelta(_, Some(TextDelta(text))) => SayHeard(a, chunks, Content(text));
      case BlockDelta(_, Some(ThinkingDelta(thinking))) => SayHeard(a, chunks, Reasoning(thinking));
      case BlockDelta(index, Some(InputJsonDelta(json))) =>
        ListenOne(chunks, Chunk(a.model.GetOr(""), ToolCallArguments(ToolIndex(a.toolUses, index.GetOr(0)), json)));
      case MessageStop =>
        ListenOne(chunks, Chunk(a.model.GetOr(""), Finish(FinishReason(a.stopReason, a.toolUses != map[]))));
      case MessageStart(_, model, _) => ListenOne(chunks, Chunk(model.GetOr(""), Role));
      case _ =>
    }
  }

  lemma OneMoreHeard(events: seq<Event>)
    requires events != []
    ensures var front, e := events[..|events| - 1], events[|events| - 1];
            var (a, chunks) := AdaptAll(front);
            && AdaptAll(events).0 == Adapted(a, e).0
            && Listen(AdaptAll(events).1) == Effect(a, Listen(chunks), e)
  {
    var front, e := events[..|events| - 1], events[|events| - 1];
    var (a, chunks) := AdaptAll(front);
    EffectHeard(a, chunks, e);
    assert AdaptAll(events).1 == chunks + Adapted(a, e).1;
  }

  lemma EffectSpeech(a: Adapter, r: Reply, e: Event)
    ensures Effect(a, r, e).text == r.text + TextPart(e) && Effect(a, r, e).thinking == r.thinking + ThinkingPart(e)
  {
    assert r.text + "" == r.text && r.thinking + "" == r.thinking;
  }

  // ----- client and aggregator agree -----

  /** Text and thinking reach the client complete and in order, whatever the events are. */
  lemma {:induction false} SpeechIsHeard(events: seq<Event>)
    ensures var r := Listen(AdaptAll(events).1); r.text == TextSent(events) && r.thinking == ThinkingSent(events)
  {
    if events != [] {
      var front, e := events[..|events| - 1], events[|events| - 1];
      SpeechIsHeard(front);
      var (a, chunks) := AdaptAll(front);
      OneMoreHeard(events);
      EffectSpeech(a, Listen(chunks), e);
    }
  }

  /** The indexes of the tool_use blocks in the order of their starts. */
  function ToolOrder(events: seq<Event>): seq<nat> {
    if events == [] then []
    else
      var rest := ToolOrder(events[..|events| - 1]);
      match events[|events| - 1]
      case BlockStart(Some(i), Some(StartToolUse(_, _, _))) => rest + [i]
      case _ => rest
  }

  /** The adapter numbers the tool blocks densely in the order of their starts. */
  ghost predicate Numbered(a: Adapter, order: seq<nat>) {
    && a.nextTool == |order|
    && (forall j: nat :: j < |order| ==> order[j] in a.toolUses && a.toolUses[order[j]] == j)
    && (forall k <- a.toolUses :: a.toolUses[k] < |order| && order[a.toolUses[k]] == k)
  }

  predicate Same(block: A.Block, call: Call) {
    block.ToolUseBlock? && block.id == call.id && block.name == call.name && block.inputJson == call.arguments
  }

  /** Every tool block is one call of the client, and there are no other calls. */
  ghost predicate SameCalls(blocks: map<nat, A.Block>, toolUses: map<nat, nat>, calls: map<nat, Call>, next: nat) {
    && (forall k <- blocks :: blocks[k].ToolUseBlock? ==> k in toolUses)
    && (forall k <- toolUses :: k in blocks && toolUses[k] in calls && Same(blocks[k], calls[toolUses[k]]))
    && (forall j: nat :: j in calls <==> j < next)
  }

  ghost predicate ToolsKnown(a: Adapter, g: Grammar) {
    && g.tools <= a.toolUses.Keys
    && a.toolUses.Keys <= g.used
    && (g.current.Some? ==> g.current.value.0 !in a.toolUses)
  }

  ghost predicate Agreed(a: Adapter, r: Reply, m: A.Message, g: Grammar, order: seq<nat>) {
    Numbered(a, order) && ToolsKnown(a, g) && SameCalls(m.blocks, a.toolUses, r.calls, a.nextTool)
  }

  lemma StartAgreed(a: Adapter, r: Reply, m: A.Message, g: Grammar, order: seq<nat>, i: nat, id: string, name: string)
    requires Agreed(a, r, m, g, order) && m.blocks.Keys == g.used
    requires g.phase == Open && i !in g.used && g.current.None?
    ensures var e := Start(i, StartToolUse(id, name, ""));
            && A.Pushed(m, e).Ok?
            && Agreed(Adapted(a, e).0, Effect(a, r, e), A.Pushed(m, e).value, Follow(g, e), order + [i])
  {}

  lemma DeltaAgreed(a: Adapter, r: Reply, m: A.Message, g: Grammar, order: seq<nat>, e: Event)
    requires Agreed(a, r, m, g, order) && m.blocks.Keys == g.used
    requires g.phase == Open && e.BlockDelta? && Follow(g, e).phase != Broken
    ensures A.Pushed(m, e).Ok?
    ensures Agreed(Adapted(a, e).0, Effect(a, r, e), A.Pushed(m, e).value, Follow(g, e), order)
  {
    A.DeltaRead(g, e);
    var i := e.index.value;
    var next := A.Pushed(m, e).value;
    match e.delta.value {
      case InputJsonDelta(json) =>
        var block, call := m.blocks[i], r.calls[a.toolUses[i]];
        assert Same(block, call);
        assert block.inputJson + "" == block.inputJson;
        assert next.blocks == m.blocks[i := block.(inputJson := block.inputJson + json)];
      case _ =>
    }
  }

  lemma AgreedStep(a: Adapter, r: Reply, m: A.Message, g: Grammar, order: seq<nat>, events: seq<Event>, e: Event)
    requires order == ToolOrder(events) && Sane(g)
    requires Agreed(a, r, m, g, order) && m.blocks.Keys == g.used
    requires Follow(g, e).phase != Broken
    ensures A.Pushed(m, e).Ok?
    ensures Agreed(Adapted(a, e).0, Effect(a, r, e), A.Pushed(m, e).value, Follow(g, e), ToolOrder(events + [e]))
  {
    assert (events + [e])[..|events|] == events;
    if g.phase == Open && e.BlockDelta? {
      DeltaAgreed(a, r, m, g, order, e);
    } else if e.BlockStart? && e.block.Some? && e.block.value.StartToolUse? {
      StartAgreed(a, r, m, g, order, e.index.value, e.block.value.id, e.block.value.name);
    } else {
      OtherAgreed(a, r, m, g, order, e);
    }
  }

  lemma OtherAgreed(a: Adapter, r: Reply, m: A.Message, g: Grammar, order: seq<nat>, e: Event)
    requires Agreed(a, r, m, g, order) && Sane(g) && m.blocks.Keys == g.used
    requires Follow(g, e).phase != Broken && !e.BlockDelta?
    requires e.BlockStart? && e.block.Some? ==> !e.block.value.StartToolUse?
    ensures A.Pushed(m, e).Ok?
    ensures Agreed(Adapted(a, e).0, Effect(a, r, e), A.Pushed(m, e).value, Follow(g, e), order)
  {
    var next := Follow(g, e);
    assert Adapted(a, e).0.toolUses == a.toolUses && Adapted(a, e).0.nextTool == a.nextTool;
    assert Effect(a, r, e).calls == r.calls;
    if e.BlockStart? {
      var i, block := e.index.value, e.block.value;
      assert A.Pushed(m, e).value.blocks == m.blocks[i := A.Opening(block).value] && i !in m.blocks;
    } else {
      assert A.Pushed(m, e).value.blocks == m.blocks;
      assert next.tools <= g.tools && next.used == g.used;
    }
  }

  ghost predicate AgreedSoFar(events: seq<Event>) {
    A.Fold(events).Ok? &&
    var (a, chunks) := AdaptAll(events);
    Agreed(a, Listen(chunks), A.Fold(events).value, FollowAll(START, events), ToolOrder(events))
  }

  lemma AgreedOn(front: seq<Event>, e: Event)
    requires AgreedSoFar(front) && Sound(front + [e])
    ensures AgreedSoFar(front + [e])
  {
    var events, g := front + [e], FollowAll(START, front);
    assert events[..|events| - 1] == front;
    SoundPrefix(events, |front|);
    A.AggregatorRebuilds(front);
    BegunAlways(front, 0);
    var (a, chunks) := AdaptAll(front);
    OneMoreHeard(events);
    assert A.Fold(events) == A.Pushed(A.Fold(front).value, e);
    AgreedStep(a, Listen(chunks), A.Fold(front).value, g, ToolOrder(front), front, e);
  }

  lemma {:induction false} AgreedAlways(events: seq<Event>)
    requires Sound(events)
    ensures AgreedSoFar(events)
  {
    if events != [] {
      var front, e := events[..|events| - 1], events[|events| - 1];
      assert events == front + [e];
      SoundPrefix(events, |front|);
      AgreedAlways(front);
      AgreedOn(front, e);
    }
  }

  lemma {:induction false} SameStopReason(events: seq<Event>)
    requires A.Fold(events).Ok?
    ensures AdaptAll(events).0.stopReason == A.Fold(events).value.stopReason
  {
    if events != [] {
      var front, e := events[..|events| - 1], events[|events| - 1];
      SameStopReason(front);
      var m := A.Fold(front).value;
      assert A.Fold(events) == A.Pushed(m, e);
      OneMoreHeard(events);
      StopReasonStep(AdaptAll(front).0, m, e);
    }
  }

  lemma StopReasonStep(a: Adapter, m: A.Message, e: Event)
    requires a.stopReason == m.stopReason && A.Pushed(m, e).Ok?
    ensures Adapted(a, e).0.stopReason == A.Pushed(m, e).value.stopReason
  {}

  lemma AnyTool(a: Adapter, order: seq<nat>)
    requires Numbered(a, order)
    ensures a.toolUses == map[] <==> order == []
  {
    if order != [] {
      assert order[0] in a.toolUses;
    }
  }

  // ----- role, model and finish reason -----

  /** The role comes first and once, a finish reason last and once if the stream is over, and
      every chunk names the model. */
  ghost predicate Enveloped(chunks: seq<Chunk>, model: string, ended: bool) {
    && chunks != []
    && chunks[0].body.Role?
    && (forall j :: 1 <= j < |chunks| ==> !chunks[j].body.Role?)
    && (forall j :: 0 <= j < |chunks| ==> chunks[j].model == model)
    && (forall j :: 0 <= j < |chunks| ==> (chunks[j].body.Finish? <==> ended && j == |chunks| - 1))
  }

  ghost predicate EnvelopedSoFar(a: Adapter, chunks: seq<Chunk>, phase: Phase, events: seq<Event>) {
    if phase == Fresh then a == NEW && chunks == []
    else
      && events != [] && events[0].MessageStart?
      && a.sentRole && a.model == events[0].model
      && Enveloped(chunks, a.model.GetOr(""), phase == Ended)
  }

  /** Once the role is out, an event gives at most one chunk, and a finish reason only at the end. */
  lemma AdaptedAfterRole(a: Adapter, e: Event)
    requires a.sentRole && !e.MessageStart?
    ensures var (b, more) := Adapted(a, e);
            && b.sentRole && b.model == a.model
            && (e.MessageStop? <==> more != [] && more[0].body.Finish?)
            && (more == [] || (|more| == 1 && more[0].model == a.model.GetOr("") && !more[0].body.Role?))
  {}

  lemma EnvelopedMore(chunks: seq<Chunk>, chunk: Chunk, model: string)
    requires Enveloped(chunks, model, false) && chunk.model == model && !chunk.body.Role?
    ensures Enveloped(chunks + [chunk], model, chunk.body.Finish?)
  {}

  lemma EnvelopedStep(a: Adapter, chunks: seq<Chunk>, g: Grammar, events: seq<Event>, e: Event)
    requires EnvelopedSoFar(a, chunks, g.phase, events) && (g.phase == Fresh ==> events == [])
    requires g.phase != Broken && Follow(g, e).phase != Broken
    ensures var (b, more) := Adapted(a, e);
            EnvelopedSoFar(b, chunks + more, Follow(g, e).phase, events + [e])
  {
    var (b, more) := Adapted(a, e);
    PhaseRead(g, e);
    if g.phase == Fresh {
      assert chunks + more == [Chunk(b.model.GetOr(""), Role)];
    } else {
      AdaptedAfterRole(a, e);
      if more == [] {
        assert chunks + more == chunks;
      } else {
        assert more == [more[0]];
        EnvelopedMore(chunks, more[0], a.model.GetOr(""));
      }
    }
  }

  lemma PhaseRead(g: Grammar, e: Event)
    requires g.phase != Broken && Follow(g, e).phase != Broken
    ensures g.phase != Ended && Follow(g, e).phase != Fresh
    ensures g.phase == Fresh <==> e.MessageStart?
    ensures Follow(g, e).phase == Ended <==> e.MessageStop?
  {}

  lemma {:induction false} EnvelopedAlways(events: seq<Event>)
    requires Sound(events)
    ensures var (a, chunks) := AdaptAll(events);
            EnvelopedSoFar(a, chunks, FollowAll(START, events).phase, events)
    ensures FollowAll(START, events).phase == Fresh ==> events == []
    ensures Complete(events) ==> events != [] && events[|events| - 1].MessageStop?
  {
    if events != [] {
      var front, e := events[..|events| - 1], events[|events| - 1];
      var g := FollowAll(START, front);
      assert events == front + [e] && FollowAll(START, events) == Follow(g, e);
      SoundPrefix(events, |front|);
      EnvelopedAlways(front);
      PhaseRead(g, e);
      var (a, chunks) := AdaptAll(front);
      EnvelopedStep(a, chunks, g, front, e);
    }
  }

  /** Two observers of one well-formed stream. An OpenAI client behind the adapter sees the role
      first and once and one finish reason at the end, holds the aggregator's text and thinking,
      and its tool call `j` is the `j`-th tool_use block to start, with the aggregator's id, name
      and input; the aggregator has no other tool block. */
  lemma TwoObserversAgree(events: seq<Event>)
    requires Complete(events)
    ensures events != [] && events[0].MessageStart?
    ensures Enveloped(AdaptAll(events).1, events[0].model.GetOr(""), true)
    ensures A.Fold(events).Ok?
    ensures var reply, m := Listen(AdaptAll(events).1), A.Fold(events).value;
            var content := A.InOrder(m.blocks, Ascending(m.blocks.Keys));
            && reply.text == A.AllText(content) && reply.thinking == A.AllThinking(content)
            && reply.finish == Some(FinishReason(m.stopReason, ToolOrder(events) != []))
            && ToolCallsAgree(ToolOrder(events), m.blocks, reply.calls)
  {
    EnvelopedAlways(events);
    SpeechIsHeard(events);
    A.MessageTextIsTextSent(events);
    AgreedAlways(events);
    LastHeard(events);
    SameStopReason(events);
    AnyTool(AdaptAll(events).0, ToolOrder(events));
  }

  lemma StopHeard(a: Adapter, r: Reply)
    ensures Adapted(a, MessageStop).0 == a
    ensures Effect(a, r, MessageStop).finish == Some(FinishReason(a.stopReason, a.toolUses != map[]))
  {}

  lemma LastHeard(events: seq<Event>)
    requires events != [] && events[|events| - 1].MessageStop?
    ensures var a := AdaptAll(events).0;
            Listen(AdaptAll(events).1).finish == Some(FinishReason(a.stopReason, a.toolUses != map[]))
  {
    var before := AdaptAll(events[..|events| - 1]);
    OneMoreHeard(events);
    StopHeard(before.0, Listen(before.1));
  }

  /** Call `j` is the block `order[j]`; `order` lists every tool block once. */
  ghost predicate ToolCallsAgree(order: seq<nat>, blocks: map<nat, A.Block>, calls: map<nat, Call>) {
    && (forall j: nat :: j in calls <==> j < |order|)
    && (forall j: nat :: j < |order| ==> order[j] in blocks && j in calls && Same(blocks[order[j]], calls[j]))
    && (forall k <- blocks :: blocks[k].ToolUseBlock? ==> k in order)
    && (forall i, j :: 0 <= i < j < |order| ==> order[i] != order[j])
  }

  /** The finish reason for every stop reason: `length` and `tool_calls` for the two that mean that, `stop` for
      all others; without one it tells whether there were tool uses. */
  lemma FinishTold(stopReason: Option<string>, anyToolUse: bool)
    ensures FinishReason(stopReason, anyToolUse) ==
            if stopReason == Some("max_tokens") then "length"
            else if stopReason == Some("tool_use") || (stopReason.None? && anyToolUse) then "tool_calls"
            else "stop"
  {}

  /** Tool input goes to the number that its block's index has; an index that has none is taken for one, and a
      missing one for 0. A tool use without an index is entered under its own number. */
  lemma NumberTold(a: Adapter, index: Option<nat>, json: string, id: string, name: string)
    ensures json != "" ==>
              var i := if index.Some? then index.value else 0;
              DeltaAdapted(a, index, InputJsonDelta(json)) ==
              (a, [Chunk(a.model.GetOr(""), ToolCallArguments(if i in a.toolUses then a.toolUses[i] else i, json))])
    ensures DeltaAdapted(a, index, InputJsonDelta("")) == (a, [])
    ensures var (b, chunks) := ToolStarted(a, index, id, name);
            && b.nextTool == a.nextTool + 1
            && b.toolUses == a.toolUses[(if index.Some? then index.value else a.nextTool) := a.nextTool]
            && chunks != [] && chunks[|chunks| - 1].body == ToolCallStart(a.nextTool, id, name)
  {}
}
