/** Folding Anthropic events back into a message
    (unigateway-protocol/src/responses/aggregator.rs). */
module Aggregator {
  import opened Common
  import opened AnthropicEvents
  import opened WellFormed

  datatype Block =
    | TextBlock(text: string)
    | ThinkingBlock(thinking: string, signature: Option<string>)
    | ToolUseBlock(id: string, name: string, inputJson: string)

  datatype Error = MissingIndex | MissingContentBlock | MissingBlockType | MissingDelta | InvalidToolInput

  datatype Message = Message(id: Option<string>, model: Option<string>, role: Option<string>,
                             stopReason: Option<string>, completed: bool, blocks: map<nat, Block>)

  const EMPTY := Message(None, None, None, None, false, map[])

  /** The aggregated block that a start block opens; unknown block types open none. */
  function Opening(block: StartBlock): Option<Block> {
    match block
    case StartText(text) => Some(TextBlock(text))
    case StartThinking(thinking, signature) =>
      Some(ThinkingBlock(thinking, if signature == "" then None else Some(signature)))
    case StartToolUse(id, name, input) => Some(ToolUseBlock(id, name, input))
    case _ => None
  }

  /** A delta on the block at its index, if there is one; a block of another kind is replaced. */
  function Extended(old_: Option<Block>, delta: Delta): Option<Block> {
    match delta
    case TextDelta(text) =>
      Some(match old_ case Some(TextBlock(before)) => TextBlock(before + text) case _ => TextBlock(text))
    case ThinkingDelta(thinking) =>
      Some(match old_ case Some(ThinkingBlock(before, signature)) => ThinkingBlock(before + thinking, signature)
                      case _ => ThinkingBlock(thinking, None))
    case SignatureDelta(signature) =>
      Some(match old_ case Some(ThinkingBlock(before, _)) => ThinkingBlock(before, Some(signature))
                      case _ => ThinkingBlock("", Some(signature)))
    case InputJsonDelta(json) =>
      Some(match old_ case Some(ToolUseBlock(id, name, before)) => ToolUseBlock(id, name, before + json)
                      case _ => ToolUseBlock("", "", json))
    case UnknownDelta => old_
  }

  function Lookup(blocks: map<nat, Block>, index: nat): Option<Block> {
    if index in blocks then Some(blocks[index]) else None
  }

  function Put(blocks: map<nat, Block>, index: nat, block: Option<Block>): map<nat, Block> {
    if block.Some? then blocks[index := block.value] else blocks
  }

  function Pushed(m: Message, e: Event): Result<Message, Error> {
    match e
    case MessageStart(id, model, role) => Ok(m.(id := id, model := model, role := role))
    case BlockStart(index, block) =>
      if index.None? then Err(MissingIndex)
      else if block.None? then Err(MissingContentBlock)
      else if block.value.StartUntyped? then Err(MissingBlockType)
      else Ok(m.(blocks := Put(m.blocks, index.value, Opening(block.value))))
    case BlockDelta(index, delta) =>
      if index.None? then Err(MissingIndex)
      else if delta.None? then Err(MissingDelta)
      else Ok(m.(blocks := Put(m.blocks, index.value, Extended(Lookup(m.blocks, index.value), delta.value))))
    case MessageDelta(reason) => Ok(m.(stopReason := if reason.Some? then reason else m.stopReason))
    case MessageStop => Ok(m.(completed := true))
    case _ => Ok(m)
  }

  class AnthropicStreamAggregator {
    var messageId: Option<string>
    var model: Option<string>
    var role: Option<string>
    var stopReason: Option<string>
    var completed: bool
    var contentBlocks: map<nat, Block>

    constructor ()
      ensures State() == EMPTY
    {
      messageId, model, role, stopReason, completed, contentBlocks := None, None, None, None, false, map[];
    }

    function State(): Message
      reads this
    {
      Message(messageId, model, role, stopReason, completed, contentBlocks)
    }

    method PushEvent(e: Event) returns (r: Result<(), Error>)
      modifies this
      ensures match Pushed(old(State()), e)
              case Ok(m) => r.Ok? && State() == m
              case Err(error) => r == Err(error) && State() == old(State())
    {
      match e {
        case MessageStart(id_, model_, role_) =>
          messageId, model, role := id_, model_, role_;
        case BlockStart(index, block) =>
          if index.None? { return Err(MissingIndex); }
          if block.None? { return Err(MissingContentBlock); }
          match block.value {
            case StartText(text) =>
              contentBlocks := contentBlocks[index.value := TextBlock(text)];
            case StartThinking(thinking, signature) =>
              var kept := if signature == "" then None else Some(signature);
              contentBlocks := contentBlocks[index.value := ThinkingBlock(thinking, kept)];
            case StartToolUse(id, name, input) =>
              contentBlocks := contentBlocks[index.value := ToolUseBlock(id, name, input)];
            case StartUnknown =>
            case StartUntyped => return Err(MissingBlockType);
          }
        case BlockDelta(index, delta) =>
          if index.None? { return Err(MissingIndex); }
          if delta.None? { return Err(MissingDelta); }
          ApplyDelta(index.value, delta.value);
        case MessageDelta(reason) =>
          if reason.Some? { stopReason := reason; }
        case MessageStop =>
          completed := true;
        case _ =>
      }
      r := Ok(());
    }

    method ApplyDelta(index: nat, delta: Delta)
      modifies this`contentBlocks
      ensures contentBlocks == Put(old(contentBlocks), index, Extended(Lookup(old(contentBlocks), index), delta))
    {
      var existing := Lookup(contentBlocks, index);
      match delta {
        case TextDelta(text) =>
          var before := if existing.Some? && existing.value.TextBlock? then existing.value.text else "";
          assert "" + text == text;
          contentBlocks := contentBlocks[index := TextBlock(before + text)];
        case ThinkingDelta(thinking) =>
          if existing.Some? && existing.value.ThinkingBlock? {
            var block := existing.value;
            contentBlocks := contentBlocks[index := block.(thinking := block.thinking + thinking)];
          } else {
            contentBlocks := contentBlocks[index := ThinkingBlock(thinking, None)];
          }
        case SignatureDelta(signature) =>
          if existing.Some? && existing.value.ThinkingBlock? {
            contentBlocks := contentBlocks[index := existing.value.(signature := Some(signature))];
          } else {
            contentBlocks := contentBlocks[index := ThinkingBlock("", Some(signature))];
          }
        case InputJsonDelta(json) =>
          if existing.Some? && existing.value.ToolUseBlock? {
            var block := existing.value;
            contentBlocks := contentBlocks[index := block.(inputJson := block.inputJson + json)];
          } else {
            contentBlocks := contentBlocks[index := ToolUseBlock("", "", json)];
          }
        case UnknownDelta =>
          assert contentBlocks == Put(contentBlocks, index, existing);
      }
    }

    /** The message as a value, unless a tool input is no JSON. `parse` reads JSON, `empty` is the
        empty object. */
    method SnapshotMessage<J>(empty: J, parse: string -> Option<J>) returns (r: Result<Snapshot<J>, Error>)
      ensures r == Snapshotted(State(), empty, parse)
    {
      AscendingSound(contentBlocks.Keys);
      var order := Ascending(contentBlocks.Keys);
      var content := [];
      for i := 0 to |order|
        invariant Values(InOrder(contentBlocks, order[..i]), empty, parse) == Ok(content)
      {
        assert order[i] in order;
        SnapshotStep(contentBlocks, order, i, empty, parse);
        var value := BlockValue(contentBlocks[order[i]], empty, parse);
        if value.Err? { return Err(value.error); }
        content := content + [value.value];
      }
      assert order[..|order|] == order;
      r := Ok(Snapshot(messageId, role.GetOr("assistant"), model, content, stopReason));
    }
  }

  // ----- the message as a value -----

  datatype Value<J> = TextValue(text: string) | ThinkingValue(thinking: string, signature: Option<string>)
                    | ToolUseValue(id: string, name: string, input: J)

  datatype Snapshot<J> = Snapshot(id: Option<string>, role: string, model: Option<string>, content: seq<Value<J>>,
                                  stopReason: Option<string>)

  function BlockValue<J>(block: Block, empty: J, parse: string -> Option<J>): Result<Value<J>, Error> {
    match block
    case TextBlock(text) => Ok(TextValue(text))
    case ThinkingBlock(thinking, signature) => Ok(ThinkingValue(thinking, signature))
    case ToolUseBlock(id, name, json) =>
      if json == "" then Ok(ToolUseValue(id, name, empty))
      else
        match parse(json)
        case None => Err(InvalidToolInput)
        case Some(input) => Ok(ToolUseValue(id, name, input))
  }

  function Values<J>(content: seq<Block>, empty: J, parse: string -> Option<J>): Result<seq<Value<J>>, Error> {
    if content == [] then Ok([])
    else
      match Values(content[..|content| - 1], empty, parse)
      case Err(error) => Err(error)
      case Ok(values) =>
        match BlockValue(content[|content| - 1], empty, parse)
        case Err(error) => Err(error)
        case Ok(value) => Ok(values + [value])
  }

  function Snapshotted<J>(m: Message, empty: J, parse: string -> Option<J>): Result<Snapshot<J>, Error> {
    match Values(InOrder(m.blocks, Ascending(m.blocks.Keys)), empty, parse)
    case Err(error) => Err(error)
    case Ok(content) => Ok(Snapshot(m.id, m.role.GetOr("assistant"), m.model, content, m.stopReason))
  }

  lemma ValuesMore<J>(content: seq<Block>, block: Block, empty: J, parse: string -> Option<J>)
    ensures Values(content + [block], empty, parse) ==
            match (Values(content, empty, parse), BlockValue(block, empty, parse))
            case (Err(error), _) => Err(error)
            case (Ok(_), Err(error)) => Err(error)
            case (Ok(values), Ok(value)) => Ok(values + [value])
  {
    assert (content + [block])[..|content|] == content;
  }

  lemma InOrderMore(blocks: map<nat, Block>, order: seq<nat>, k: nat)
    requires k in blocks
    ensures InOrder(blocks, order + [k]) == InOrder(blocks, order) + [blocks[k]]
  {
    assert (order + [k])[..|order|] == order;
  }

  lemma {:induction false} ValuesFail<J>(blocks: map<nat, Block>, order: seq<nat>, n: nat, empty: J,
                                         parse: string -> Option<J>)
    requires n <= |order| && forall k <- order :: k in blocks
    requires Values(InOrder(blocks, order[..n]), empty, parse).Err?
    ensures Values(InOrder(blocks, order), empty, parse) == Values(InOrder(blocks, order[..n]), empty, parse)
    decreases |order| - n
  {
    if n < |order| {
      assert order[..n + 1] == order[..n] + [order[n]] && order[n] in order;
      InOrderMore(blocks, order[..n], order[n]);
      ValuesMore(InOrder(blocks, order[..n]), blocks[order[n]], empty, parse);
      ValuesFail(blocks, order, n + 1, empty, parse);
    } else {
      assert order[..n] == order;
    }
  }

  lemma SnapshotStep<J>(blocks: map<nat, Block>, order: seq<nat>, i: nat, empty: J, parse: string -> Option<J>)
    requires i < |order| && forall k <- order :: k in blocks
    requires Values(InOrder(blocks, order[..i]), empty, parse).Ok?
    ensures order[i] in blocks
    ensures match BlockValue(blocks[order[i]], empty, parse)
            case Ok(value) =>
              Values(InOrder(blocks, order[..i + 1]), empty, parse)
              == Ok(Values(InOrder(blocks, order[..i]), empty, parse).value + [value])
            case Err(error) => Values(InOrder(blocks, order), empty, parse) == Err(error)
  {
    assert order[..i + 1] == order[..i] + [order[i]] && order[i] in order;
    InOrderMore(blocks, order[..i], order[i]);
    ValuesMore(InOrder(blocks, order[..i]), blocks[order[i]], empty, parse);
    if BlockValue(blocks[order[i]], empty, parse).Err? {
      ValuesFail(blocks, order, i + 1, empty, parse);
    }
  }

  /** A tool input that can be read. */
  predicate Readable<J>(block: Block, parse: string -> Option<J>) {
    block.ToolUseBlock? && block.inputJson != "" ==> parse(block.inputJson).Some?
  }

  lemma {:induction false} ValuesIff<J>(content: seq<Block>, empty: J, parse: string -> Option<J>)
    ensures Values(content, empty, parse).Ok? <==> forall j :: 0 <= j < |content| ==> Readable(content[j], parse)
    ensures Values(content, empty, parse).Ok? ==> |Values(content, empty, parse).value| == |content|
    ensures Values(content, empty, parse).Ok? ==>
              forall j :: 0 <= j < |content|
                ==> BlockValue(content[j], empty, parse) == Ok(Values(content, empty, parse).value[j])
  {
    if content != [] {
      ValuesIff(content[..|content| - 1], empty, parse);
    }
  }

  lemma {:induction false} InOrderAll(blocks: map<nat, Block>, order: seq<nat>)
    requires forall k <- order :: k in blocks
    ensures |InOrder(blocks, order)| == |order|
    ensures forall j :: 0 <= j < |order| ==> order[j] in blocks && InOrder(blocks, order)[j] == blocks[order[j]]
  {
    if order != [] {
      assert order[|order| - 1] in order;
      InOrderAll(blocks, order[..|order| - 1]);
    }
  }

  /** A snapshot is refused exactly when some tool block holds text that is no JSON; otherwise it lists
      the values of all blocks in ascending order of their indexes. */
  lemma SnapshotFailsIff<J>(m: Message, empty: J, parse: string -> Option<J>)
    ensures var order, r := Ascending(m.blocks.Keys), Snapshotted(m, empty, parse);
            && (r.Ok? <==> forall k <- m.blocks :: Readable(m.blocks[k], parse))
            && (r.Ok? ==> |r.value.content| == |order|)
            && (r.Ok? ==> forall j :: 0 <= j < |order| ==> order[j] in m.blocks)
            && (r.Ok? ==> forall j :: 0 <= j < |order|
                            ==> BlockValue(m.blocks[order[j]], empty, parse) == Ok(r.value.content[j]))
  {
    var order := Ascending(m.blocks.Keys);
    AscendingSound(m.blocks.Keys);
    InOrderAll(m.blocks, order);
    var content := InOrder(m.blocks, order);
    ValuesIff(content, empty, parse);
    if forall j :: 0 <= j < |content| ==> Readable(content[j], parse) {
      forall k | k in m.blocks ensures Readable(m.blocks[k], parse) {
        assert k in order;
        var j :| 0 <= j < |order| && order[j] == k;
        assert content[j] == m.blocks[k];
      }
    }
  }

  function InOrder(blocks: map<nat, Block>, order: seq<nat>): seq<Block> {
    if order == [] then []
    else
      InOrder(blocks, order[..|order| - 1])
      + (if order[|order| - 1] in blocks then [blocks[order[|order| - 1]]] else [])
  }

  /** The message after all events, unless one of them is refused. */
  function Fold(events: seq<Event>): Result<Message, Error> {
    if events == [] then Ok(EMPTY)
    else
      match Fold(events[..|events| - 1])
      case Ok(m) => Pushed(m, events[|events| - 1])
      case Err(error) => Err(error)
  }

  // ----- what the message says of itself -----

  /** The last stop reason given. */
  function LastStop(events: seq<Event>): Option<string> {
    if events == [] then None
    else
      match events[|events| - 1]
      case MessageDelta(Some(reason)) => Some(reason)
      case _ => LastStop(events[..|events| - 1])
  }

  /** On every stream that keeps the rules, the message has the id, model and role of its first event, and
      the last stop reason that was given. */
  lemma {:induction false} HeadTold(events: seq<Event>)
    requires Sound(events) && events != []
    ensures events[0].MessageStart? && Fold(events).Ok?
    ensures var m := Fold(events).value;
            && m.id == events[0].id && m.model == events[0].model && m.role == events[0].role
            && m.stopReason == LastStop(events)
  {
    var front, e := events[..|events| - 1], events[|events| - 1];
    SoundPrefix(events, |front|);
    AggregatorRebuilds(events);
    AggregatorRebuilds(front);
    assert Fold(events) == Pushed(Fold(front).value, e);
    if front == [] {
      assert FollowAll(START, events) == Follow(START, e);
    } else {
      HeadTold(front);
      StartedOnce(front);
      assert !e.MessageStart?;
    }
  }

  lemma {:induction false} StartedOnce(events: seq<Event>)
    requires Sound(events) && events != []
    ensures FollowAll(START, events).phase != Fresh
  {
    if |events| > 1 {
      SoundPrefix(events, |events| - 1);
      StartedOnce(events[..|events| - 1]);
    } else {
      assert events[..0] == [];
    }
  }

  /** A snapshot says of itself what the message does; the role is `assistant` if none was given. */
  lemma SnapshotTold<J>(m: Message, empty: J, parse: string -> Option<J>)
    ensures var r := Snapshotted(m, empty, parse);
            r.Ok? ==>
              && r.value.id == m.id && r.value.model == m.model && r.value.stopReason == m.stopReason
              && r.value.role == match m.role case Some(role) => role case None => "assistant"
  {}

  /** What a block's value holds: its text, its thinking and signature, or its id, name and parsed input,
      the empty object for none. */
  lemma ValueTold<J>(block: Block, empty: J, parse: string -> Option<J>)
    requires Readable(block, parse)
    ensures var r := BlockValue(block, empty, parse);
            match block
            case TextBlock(text) => r == Ok(TextValue(text))
            case ThinkingBlock(thinking, signature) => r == Ok(ThinkingValue(thinking, signature))
            case ToolUseBlock(id, name, json) =>
              r == Ok(ToolUseValue(id, name, if json == "" then empty else parse(json).value))
  {}

  // ----- events that keep no rules -----

  /** An event is refused exactly if a block starts or changes and the index, the block or its type, or the
      delta is missing, and for the first of these reasons. */
  lemma RefusedBecause(m: Message, e: Event)
    ensures match e
            case BlockStart(None, _) => Pushed(m, e) == Err(MissingIndex)
            case BlockStart(Some(_), None) => Pushed(m, e) == Err(MissingContentBlock)
            case BlockStart(Some(_), Some(StartUntyped)) => Pushed(m, e) == Err(MissingBlockType)
            case BlockDelta(None, _) => Pushed(m, e) == Err(MissingIndex)
            case BlockDelta(Some(_), None) => Pushed(m, e) == Err(MissingDelta)
            case _ => Pushed(m, e).Ok?
  {}

  /** A delta that does not fit the block at its index, or finds none, puts a new block there. */
  lemma MisfitReplaces(m: Message, i: nat, delta: Delta)
    ensures var old_, next := Lookup(m.blocks, i), Pushed(m, Send(i, delta)).value.blocks;
            match delta
            case TextDelta(text) =>
              !(old_.Some? && old_.value.TextBlock?) ==> next == m.blocks[i := TextBlock(text)]
            case ThinkingDelta(thinking) =>
              !(old_.Some? && old_.value.ThinkingBlock?) ==> next == m.blocks[i := ThinkingBlock(thinking, None)]
            case SignatureDelta(signature) =>
              !(old_.Some? && old_.value.ThinkingBlock?) ==> next == m.blocks[i := ThinkingBlock("", Some(signature))]
            case InputJsonDelta(json) =>
              !(old_.Some? && old_.value.ToolUseBlock?) ==> next == m.blocks[i := ToolUseBlock("", "", json)]
            case UnknownDelta => next == m.blocks
  {}

  // ----- each block holds what was sent to it -----

  function JsonPart(e: Event): string {
    match e
    case BlockDelta(_, Some(InputJsonDelta(json))) => json
    case _ => ""
  }

  function JsonSent(events: seq<Event>): string {
    if events == [] then "" else JsonSent(events[..|events| - 1]) + JsonPart(events[|events| - 1])
  }

  function LastSignature(events: seq<Event>): Option<string> {
    if events == [] then None
    else match events[|events| - 1]
         case BlockDelta(_, Some(SignatureDelta(signature))) => Some(signature)
         case _ => LastSignature(events[..|events| - 1])
  }

  /** The block that the events of one index describe, read off these events alone. */
  function Described(p: seq<Event>): Option<Block> {
    if p == [] || !p[0].BlockStart? || p[0].block.None? then None
    else
      match p[0].block.value
      case StartText(_) => Some(TextBlock(TextSent(p)))
      case StartThinking(_, _) => Some(ThinkingBlock(ThinkingSent(p), LastSignature(p)))
      case StartToolUse(id, name, _) => Some(ToolUseBlock(id, name, JsonSent(p)))
      case _ => None
  }

  lemma StartDescribed(e: Event)
    requires e.BlockStart? && e.block.Some? && EmptyKind(e.block.value).Some?
    ensures Described([e]) == Opening(e.block.value)
  {
    assert [e][..0] == [];
    assert TextSent([e]) == TextSent([]) + "" == "";
    assert ThinkingSent([e]) == ThinkingSent([]) + "" == "";
    assert JsonSent([e]) == JsonSent([]) + "" == "";
    assert LastSignature([e]) == LastSignature([e][..0]) == None;
    match e.block.value {
      case StartText(text) => assert text == "";
      case StartThinking(thinking, signature) => assert thinking == "" && signature == "";
      case StartToolUse(_, _, input) => assert input == "";
    }
  }

  lemma MoreDescribed(p: seq<Event>, e: Event)
    requires p != [] && p[0].BlockStart? && p[0].block.Some? && EmptyKind(p[0].block.value).Some?
    requires e.BlockStop? || IsSignature(e) || (e.BlockDelta? && e.delta == Some(UnknownDelta))
             || ContentOf(e, EmptyKind(p[0].block.value).value)
    requires IsSignature(e) ==> EmptyKind(p[0].block.value) == Some(ThinkingKind)
    ensures match e
            case BlockDelta(_, Some(delta)) => Described(p + [e]) == Extended(Described(p), delta)
            case _ => Described(p + [e]) == Described(p)
  {
    var q := p + [e];
    assert q[..|q| - 1] == p && q[0] == p[0];
    assert TextSent(q) == TextSent(p) + TextPart(e);
    assert ThinkingSent(q) == ThinkingSent(p) + ThinkingPart(e);
    assert JsonSent(q) == JsonSent(p) + JsonPart(e);
    assert TextSent(p) + "" == TextSent(p) && ThinkingSent(p) + "" == ThinkingSent(p)
           && JsonSent(p) + "" == JsonSent(p);
  }

  /** One more event of an open block, or its start, extends what is described. */
  lemma DescribedStep(g: Grammar, p: seq<Event>, k: nat, e: Event)
    requires Sane(g) && Begun(g, p, k) && g.phase == Open
    requires Follow(g, e).phase != Broken && AddressOf(e) == Some(k)
    ensures match e
            case BlockStart(_, Some(block)) => Described(p + [e]) == Opening(block)
            case BlockDelta(_, Some(delta)) => Described(p + [e]) == Extended(Described(p), delta)
            case _ => Described(p + [e]) == Described(p)
  {
    if e.BlockStart? {
      assert p == [] && p + [e] == [e];
      StartDescribed(e);
    } else {
      MoreDescribed(p, e);
    }
  }

  /** The aggregator's state after a stream that has broken no rule so far. */
  ghost predicate Rebuilt(m: Message, g: Grammar, events: seq<Event>) {
    && m.blocks.Keys == g.used
    && (forall k <- m.blocks :: Described(Project(events, k)) == Some(m.blocks[k]))
    && (m.completed <==> g.phase == Ended)
  }

  lemma {:induction false} RebuiltStep(m: Message, g: Grammar, events: seq<Event>, e: Event)
    requires g == FollowAll(START, events) && Rebuilt(m, g, events)
    requires Sane(g)
    requires Follow(g, e).phase != Broken
    ensures Pushed(m, e).Ok? && Rebuilt(Pushed(m, e).value, Follow(g, e), events + [e])
  {
    OneMore(events, e);
    OneMoreFollowed(events, e);
    if g.phase == Open && AddressOf(e).Some? {
      var i := AddressOf(e).value;
      BegunAlways(events, i);
      DescribedStep(g, Project(events, i), i, e);
      assert i !in g.used ==> Project(events, i) == [];
      BlockPushed(m, i, e);
      BlocksRead(m, g, i, e);
    }
  }

  /** The blocks after an addressed event are the started ones. */
  lemma BlocksRead(m: Message, g: Grammar, i: nat, e: Event)
    requires m.blocks.Keys == g.used && g.phase == Open && AddressOf(e) == Some(i) && Follow(g, e).phase != Broken
    requires (g.current.Some? ==> g.current.value.0 in g.used) && g.tools <= g.used
    ensures Pushed(m, e).Ok? && Pushed(m, e).value.blocks.Keys == Follow(g, e).used
    ensures Pushed(m, e).value.completed == m.completed && Follow(g, e).phase in {Open}
  {}

  /** An addressed event touches one block only. */
  lemma BlockPushed(m: Message, i: nat, e: Event)
    requires AddressOf(e) == Some(i)
    requires match e
             case BlockStart(_, block) => block.Some? && !block.value.StartUntyped?
             case BlockDelta(_, delta) => delta.Some?
             case _ => true
    ensures Pushed(m, e).Ok?
    ensures forall k: nat :: k != i ==> Lookup(Pushed(m, e).value.blocks, k) == Lookup(m.blocks, k)
    ensures var after := Lookup(Pushed(m, e).value.blocks, i);
            match e
            case BlockStart(_, Some(block)) => Opening(block).Some? ==> after == Opening(block)
            case BlockDelta(_, Some(delta)) => after == Extended(Lookup(m.blocks, i), delta)
            case _ => after == Lookup(m.blocks, i)
  {}

  /** For every stream that breaks no rule, complete or not: no event is refused, the blocks are
      exactly those that were started, each holds what the events of its index describe, and the
      message is complete exactly after `message_stop`. */
  lemma {:induction false} AggregatorRebuilds(events: seq<Event>)
    requires Sound(events)
    ensures Fold(events).Ok? && Rebuilt(Fold(events).value, FollowAll(START, events), events)
  {
    if events != [] {
      var front, e := events[..|events| - 1], events[|events| - 1];
      var g := FollowAll(START, front);
      assert events == front + [e] && FollowAll(START, events) == Follow(g, e);
      SoundPrefix(events, |front|);
      AggregatorRebuilds(front);
      BegunAlways(front, 0);
      var m := Fold(front).value;
      assert Fold(events) == Pushed(m, e);
      RebuiltStep(m, g, front, e);
    }
  }

  // ----- text in index order is text in the order it was sent -----

  function TextIn(block: Block): string { if block.TextBlock? then block.text else "" }

  function ThinkingIn(block: Block): string { if block.ThinkingBlock? then block.thinking else "" }

  function AllText(content: seq<Block>): string {
    if content == [] then "" else AllText(content[..|content| - 1]) + TextIn(content[|content| - 1])
  }

  function AllThinking(content: seq<Block>): string {
    if content == [] then "" else AllThinking(content[..|content| - 1]) + ThinkingIn(content[|content| - 1])
  }

  /** Text and thinking of the blocks below `n`, in index order. */
  function Below(blocks: map<nat, Block>, n: nat): (string, string) {
    if n == 0 then ("", "")
    else
      var (text, thinking) := Below(blocks, n - 1);
      if n - 1 in blocks then (text + TextIn(blocks[n - 1]), thinking + ThinkingIn(blocks[n - 1]))
      else (text, thinking)
  }

  lemma {:induction false} BelowSame(a: map<nat, Block>, b: map<nat, Block>, n: nat)
    requires forall k: nat :: k < n ==> SameSpeech(Lookup(a, k), Lookup(b, k))
    ensures Below(a, n) == Below(b, n)
  {
    if n > 0 {
      BelowSame(a, b, n - 1);
      assert SameSpeech(Lookup(a, n - 1), Lookup(b, n - 1));
      var (text, thinking) := Below(a, n - 1);
      assert text + "" == text && thinking + "" == thinking;
    }
  }

  /** Two blocks, or the lack of one, say the same. */
  predicate SameSpeech(a: Option<Block>, b: Option<Block>) {
    && (if a.Some? then TextIn(a.value) else "") == (if b.Some? then TextIn(b.value) else "")
    && (if a.Some? then ThinkingIn(a.value) else "") == (if b.Some? then ThinkingIn(b.value) else "")
  }

  lemma {:induction false} BelowSilent(blocks: map<nat, Block>, lo: nat, hi: nat)
    requires lo <= hi
    requires forall k: nat :: lo <= k < hi ==> SameSpeech(Lookup(blocks, k), None)
    ensures Below(blocks, hi) == Below(blocks, lo)
  {
    if lo < hi {
      BelowSilent(blocks, lo, hi - 1);
      assert SameSpeech(Lookup(blocks, hi - 1), None);
      var (text, thinking) := Below(blocks, lo);
      assert text + "" == text && thinking + "" == thinking;
    }
  }

  /** Only tool blocks lie above the bound, the open text or thinking block directly under it. */
  ghost predicate SpeechShape(blocks: map<nat, Block>, g: Grammar) {
    && (g.current.Some? ==> g.current.value.0 + 1 == g.bound)
    && (forall k <- blocks :: g.bound <= k ==> blocks[k].ToolUseBlock?)
    && (forall k <- g.tools :: k in blocks && blocks[k].ToolUseBlock?)
    && (g.current.Some? ==> CurrentBlock(blocks, g.current.value.0, g.current.value.1))
  }

  predicate CurrentBlock(blocks: map<nat, Block>, k: nat, kind: Kind) {
    k in blocks && (kind == TextKind ==> blocks[k].TextBlock?) && (kind == ThinkingKind ==> blocks[k].ThinkingBlock?)
  }

  ghost predicate SpeechBelow(m: Message, g: Grammar, events: seq<Event>) {
    && SpeechShape(m.blocks, g)
    && Below(m.blocks, g.bound).0 == TextSent(events)
    && Below(m.blocks, g.bound).1 == ThinkingSent(events)
  }

  /** A start adds an empty block. */
  lemma StartPushed(m: Message, g: Grammar, events: seq<Event>, e: Event)
    requires g == FollowAll(START, events) && Rebuilt(m, g, events)
    requires g.phase == Open && e.BlockStart? && Follow(g, e).phase != Broken
    ensures var i, block := e.index.value, Opening(e.block.value);
            && i !in m.blocks && block.Some? && TextIn(block.value) == "" && ThinkingIn(block.value) == ""
            && Pushed(m, e) == Ok(m.(blocks := m.blocks[i := block.value]))
            && (block.value.ToolUseBlock? <==> EmptyKind(e.block.value) == Some(ToolKind))
            && (block.value.TextBlock? <==> EmptyKind(e.block.value) == Some(TextKind))
  {}

  lemma SpeechStart(m: Message, g: Grammar, events: seq<Event>, e: Event)
    requires g == FollowAll(START, events) && Rebuilt(m, g, events) && SpeechBelow(m, g, events)
    requires g.phase == Open && e.BlockStart? && Follow(g, e).phase != Broken
    ensures Pushed(m, e).Ok? && SpeechBelow(Pushed(m, e).value, Follow(g, e), events + [e])
  {
    OneMore(events, e);
    StartPushed(m, g, events, e);
    var i, block := e.index.value, Opening(e.block.value).value;
    if block.ToolUseBlock? {
      ToolStartSilent(m.blocks, g, i, block);
    } else {
      ContentStartSilent(m.blocks, g, i, block);
    }
    assert TextSent(events) + "" == TextSent(events) && ThinkingSent(events) + "" == ThinkingSent(events);
  }

  lemma ToolStartSilent(blocks: map<nat, Block>, g: Grammar, i: nat, block: Block)
    requires SpeechShape(blocks, g) && g.current.None? && i !in blocks && block.ToolUseBlock?
    ensures SpeechShape(blocks[i := block], g.(used := g.used + {i}, tools := g.tools + {i}))
    ensures Below(blocks[i := block], g.bound) == Below(blocks, g.bound)
  {
    BelowSame(blocks, blocks[i := block], g.bound);
  }

  lemma ContentStartSilent(blocks: map<nat, Block>, g: Grammar, i: nat, block: Block)
    requires SpeechShape(blocks, g) && g.current.None? && i !in blocks && g.bound <= i
    requires !block.ToolUseBlock? && TextIn(block) == "" && ThinkingIn(block) == ""
    ensures var kind := if block.TextBlock? then TextKind else ThinkingKind;
            SpeechShape(blocks[i := block], g.(used := g.used + {i}, current := Some((i, kind)), bound := i + 1))
    ensures Below(blocks[i := block], i + 1) == Below(blocks, g.bound)
  {
    BelowSame(blocks, blocks[i := block], g.bound);
    BelowSilent(blocks[i := block], g.bound, i + 1);
  }

  lemma SpeechDelta(m: Message, g: Grammar, events: seq<Event>, e: Event)
    requires g == FollowAll(START, events) && Rebuilt(m, g, events) && SpeechBelow(m, g, events)
    requires g.phase == Open && e.BlockDelta? && Follow(g, e).phase != Broken
    ensures Pushed(m, e).Ok? && SpeechBelow(Pushed(m, e).value, Follow(g, e), events + [e])
  {
    OneMore(events, e);
    OneMoreFollowed(events, e);
    DeltaRead(g, e);
    DeltaSpeech(m.blocks, Pushed(m, e).value.blocks, g, e);
  }

  lemma DeltaRead(g: Grammar, e: Event)
    requires g.phase == Open && e.BlockDelta? && Follow(g, e).phase != Broken
    ensures e.index.Some? && e.delta.Some? && Follow(g, e) == g
    ensures match e.delta.value
            case InputJsonDelta(_) => e.index.value in g.tools
            case UnknownDelta => IsOpen(g, e.index.value)
            case TextDelta(_) => g.current == Some((e.index.value, TextKind))
            case _ => g.current == Some((e.index.value, ThinkingKind))
  {}

  lemma DeltaSpeech(blocks: map<nat, Block>, more: map<nat, Block>, g: Grammar, e: Event)
    requires SpeechShape(blocks, g) && g.phase == Open && e.BlockDelta? && Follow(g, e).phase != Broken
    requires more == Put(blocks, e.index.value, Extended(Lookup(blocks, e.index.value), e.delta.value))
    ensures SpeechShape(more, Follow(g, e))
    ensures Below(more, g.bound).0 == Below(blocks, g.bound).0 + TextPart(e)
    ensures Below(more, g.bound).1 == Below(blocks, g.bound).1 + ThinkingPart(e)
  {
    DeltaRead(g, e);
    var i := e.index.value;
    if e.delta.value.InputJsonDelta? || e.delta.value.UnknownDelta? {
      assert SameSpeech(Lookup(more, i), Lookup(blocks, i));
      BelowSame(blocks, more, g.bound);
      var (t, h) := Below(blocks, g.bound);
      assert t + "" == t && h + "" == h;
    } else {
      assert CurrentBlock(blocks, i, g.current.value.1);
      assert TextIn(blocks[i]) + "" == TextIn(blocks[i]) && ThinkingIn(blocks[i]) + "" == ThinkingIn(blocks[i]);
      SpeechGrows(blocks, more, i, e);
    }
  }

  lemma SpeechStep(m: Message, g: Grammar, events: seq<Event>, e: Event)
    requires g == FollowAll(START, events) && Rebuilt(m, g, events) && SpeechBelow(m, g, events) && Sane(g)
    requires Follow(g, e).phase != Broken
    ensures Pushed(m, e).Ok? && SpeechBelow(Pushed(m, e).value, Follow(g, e), events + [e])
  {
    if g.phase == Open && e.BlockStart? {
      SpeechStart(m, g, events, e);
    } else if g.phase == Open && e.BlockDelta? {
      SpeechDelta(m, g, events, e);
    } else {
      OneMore(events, e);
      OneMoreFollowed(events, e);
      assert TextSent(events) + "" == TextSent(events) && ThinkingSent(events) + "" == ThinkingSent(events);
    }
  }

  /** A delta to the last block below the bound comes last in index order too. */
  lemma SpeechGrows(blocks: map<nat, Block>, more: map<nat, Block>, i: nat, e: Event)
    requires i in blocks && i in more
    requires forall k: nat :: k != i ==> Lookup(more, k) == Lookup(blocks, k)
    requires TextIn(more[i]) == TextIn(blocks[i]) + TextPart(e)
    requires ThinkingIn(more[i]) == ThinkingIn(blocks[i]) + ThinkingPart(e)
    ensures Below(more, i + 1).0 == Below(blocks, i + 1).0 + TextPart(e)
    ensures Below(more, i + 1).1 == Below(blocks, i + 1).1 + ThinkingPart(e)
  {
    BelowSame(blocks, more, i);
    var (t, h) := Below(blocks, i);
    Assoc(t, TextIn(blocks[i]), TextPart(e));
    Assoc(h, ThinkingIn(blocks[i]), ThinkingPart(e));
  }

  lemma {:induction false} SpeechAlways(events: seq<Event>)
    requires Sound(events)
    ensures Fold(events).Ok? && SpeechBelow(Fold(events).value, FollowAll(START, events), events)
  {
    if events != [] {
      var front, e := events[..|events| - 1], events[|events| - 1];
      var g := FollowAll(START, front);
      assert events == front + [e] && FollowAll(START, events) == Follow(g, e);
      SoundPrefix(events, |front|);
      AggregatorRebuilds(front);
      SpeechAlways(front);
      BegunAlways(front, 0);
      var m := Fold(front).value;
      assert Fold(events) == Pushed(m, e);
      SpeechStep(m, g, front, e);
    }
  }

  lemma AllMore(content: seq<Block>, block: Block)
    ensures AllText(content + [block]) == AllText(content) + TextIn(block)
    ensures AllThinking(content + [block]) == AllThinking(content) + ThinkingIn(block)
  {
    assert (content + [block])[..|content|] == content;
  }

  /** `order` lists the indexes below `n`, ascending. */
  ghost predicate Lists(order: seq<nat>, blocks: map<nat, Block>, n: nat) {
    && (forall i, j :: 0 <= i < j < |order| ==> order[i] < order[j])
    && (forall k: nat :: k in order <==> k in blocks && k < n)
  }

  lemma ListsFront(order: seq<nat>, blocks: map<nat, Block>, n: nat)
    requires order != [] && Lists(order, blocks, n)
    ensures var last := order[|order| - 1];
            && last in blocks && last < n
            && Lists(order[..|order| - 1], blocks, last)
            && forall k: nat :: last < k < n ==> k !in blocks
  {}

  lemma {:induction false} InOrderBelow(blocks: map<nat, Block>, order: seq<nat>, n: nat)
    requires Lists(order, blocks, n)
    ensures AllText(InOrder(blocks, order)) == Below(blocks, n).0
    ensures AllThinking(InOrder(blocks, order)) == Below(blocks, n).1
    decreases |order|
  {
    if order == [] {
      forall k: nat | 0 <= k < n ensures SameSpeech(Lookup(blocks, k), None) {
        assert k !in order;
      }
      BelowSilent(blocks, 0, n);
    } else {
      var front, last := order[..|order| - 1], order[|order| - 1];
      ListsFront(order, blocks, n);
      InOrderBelow(blocks, front, last);
      BelowSilent(blocks, last + 1, n);
      AllMore(InOrder(blocks, front), blocks[last]);
    }
  }

  lemma {:induction false} AboveAll(s: set<nat>) returns (n: nat)
    ensures forall k <- s :: k < n
    decreases |s|
  {
    if s == {} {
      n := 0;
    } else {
      var m := AboveAll(s - {Least(s)});
      n := if m > Least(s) then m else Least(s) + 1;
      assert forall k <- s :: k == Least(s) || k in s - {Least(s)};
    }
  }

  /** The text of the message, block after block in index order, is the text in the order it was
      sent, however text, thinking and tool blocks take turns; so is the thinking. */
  lemma MessageTextIsTextSent(events: seq<Event>)
    requires Sound(events)
    ensures Fold(events).Ok?
    ensures var blocks := Fold(events).value.blocks;
            var content := InOrder(blocks, Ascending(blocks.Keys));
            AllText(content) == TextSent(events) && AllThinking(content) == ThinkingSent(events)
  {
    SpeechAlways(events);
    var blocks, bound := Fold(events).value.blocks, FollowAll(START, events).bound;
    AscendingSound(blocks.Keys);
    var above := AboveAll(blocks.Keys);
    var n := if above > bound then above else bound;
    InOrderBelow(blocks, Ascending(blocks.Keys), n);
    forall k: nat | bound <= k < n ensures SameSpeech(Lookup(blocks, k), None) {
      assert k in blocks ==> blocks[k].ToolUseBlock?;
    }
    BelowSilent(blocks, bound, n);
  }
}
