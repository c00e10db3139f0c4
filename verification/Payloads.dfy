/** Streams whose blocks start with a payload, a text, thinking or tool input sent along with the start,
    which the adapter does not forward: when aggregator and adapter still agree
    (unigateway-protocol/src/responses/aggregator.rs:59-119, openai_chat.rs:106-140). */
module Payloads {
  import opened Common
  import opened AnthropicEvents
  import opened WellFormed
  import opened OpenAiChat
  import opened ForeignBlocks
  import A = Aggregator

  function Payload(block: StartBlock): string {
    match block
    case StartText(text) => text
    case StartThinking(thinking, _) => thinking
    case StartToolUse(_, _, input) => input
    case _ => ""
  }

  function EmptiedBlock(block: StartBlock): StartBlock {
    match block
    case StartText(_) => StartText("")
    case StartThinking(_, _) => StartThinking("", "")
    case StartToolUse(id, name, _) => StartToolUse(id, name, "")
    case _ => block
  }

  function EmptiedOne(e: Event): Event {
    match e
    case BlockStart(index, Some(block)) => BlockStart(index, Some(EmptiedBlock(block)))
    case _ => e
  }

  /** The stream as if all blocks started empty. */
  function Emptied(events: seq<Event>): seq<Event> {
    if events == [] then [] else Emptied(events[..|events| - 1]) + [EmptiedOne(events[|events| - 1])]
  }

  /** Well formed but for payloads and signatures at the start of blocks. */
  predicate CompleteButForPayloads(events: seq<Event>) { Complete(Emptied(events)) }

  predicate Bare(e: Event) { e.BlockStart? && e.block.Some? ==> Payload(e.block.value) == "" }

  predicate NoPayload(events: seq<Event>) { forall e <- events :: Bare(e) }

  // ----- the adapter -----

  lemma {:induction false} SameForTheClient(events: seq<Event>)
    ensures AdaptAll(Emptied(events)) == AdaptAll(events)
    ensures ToolOrder(Emptied(events)) == ToolOrder(events)
  {
    if events != [] {
      var front, e := events[..|events| - 1], events[|events| - 1];
      SameForTheClient(front);
      assert Emptied(events)[..|Emptied(events)| - 1] == Emptied(front);
      assert Adapted(AdaptAll(front).0, EmptiedOne(e)) == Adapted(AdaptAll(front).0, e);
    }
  }

  // ----- the aggregator -----

  /** The same block but for its signature, with something in front of what it holds. */
  predicate Padded(pad: string, block: A.Block, bare: A.Block) {
    match (block, bare)
    case (TextBlock(x), TextBlock(y)) => x == pad + y
    case (ThinkingBlock(x, _), ThinkingBlock(y, _)) => x == pad + y
    case (ToolUseBlock(i, n, x), ToolUseBlock(j, k, y)) => i == j && n == k && x == pad + y
    case _ => false
  }

  /** The payload that the block at `k` started with. */
  function PayloadAt(events: seq<Event>, k: nat): string {
    if events == [] then ""
    else
      match events[|events| - 1]
      case BlockStart(Some(i), Some(block)) =>
        if i == k then Payload(block) else PayloadAt(events[..|events| - 1], k)
      case _ => PayloadAt(events[..|events| - 1], k)
  }

  ghost predicate BlocksPadded(events: seq<Event>, blocks: map<nat, A.Block>, bare: map<nat, A.Block>) {
    blocks.Keys == bare.Keys && forall k <- blocks :: Padded(PayloadAt(events, k), blocks[k], bare[k])
  }

  ghost predicate PayloadsKnown(events: seq<Event>, indexes: set<nat>) {
    NoPayload(events) <==> forall k <- indexes :: PayloadAt(events, k) == ""
  }

  ghost predicate AllPadded(events: seq<Event>, m: A.Message, bare: A.Message) {
    && m.stopReason == bare.stopReason
    && BlocksPadded(events, m.blocks, bare.blocks) && PayloadsKnown(events, m.blocks.Keys)
  }

  /** Deltas meet the blocks they are for. */
  ghost predicate KindsHeld(g: Grammar, blocks: map<nat, A.Block>) {
    && blocks.Keys == g.used
    && (forall i <- g.tools :: i in blocks && blocks[i].ToolUseBlock?)
    && (g.current.Some? ==>
          var (i, kind) := g.current.value;
          i in blocks && (if kind == TextKind then blocks[i].TextBlock? else blocks[i].ThinkingBlock?))
  }

  lemma KindsAlways(events: seq<Event>)
    requires Sound(events)
    ensures A.Fold(events).Ok? && KindsHeld(FollowAll(START, events), A.Fold(events).value.blocks)
  {
    A.AggregatorRebuilds(events);
    var g, blocks := FollowAll(START, events), A.Fold(events).value.blocks;
    BegunAlways(events, 0);
    forall i | i in g.tools ensures i in blocks && blocks[i].ToolUseBlock? {
      BegunAlways(events, i);
      assert A.Described(Project(events, i)) == Some(blocks[i]);
    }
    if g.current.Some? {
      var i := g.current.value.0;
      BegunAlways(events, i);
      assert A.Described(Project(events, i)) == Some(blocks[i]);
    }
  }

  lemma PaddedDelta(pad: string, block: A.Block, bare: A.Block, delta: Delta)
    requires Padded(pad, block, bare)
    requires match delta
             case TextDelta(_) => block.TextBlock?
             case ThinkingDelta(_) => block.ThinkingBlock?
             case SignatureDelta(_) => block.ThinkingBlock?
             case InputJsonDelta(_) => block.ToolUseBlock?
             case UnknownDelta => true
    ensures A.Extended(Some(block), delta).Some? && A.Extended(Some(bare), delta).Some?
    ensures Padded(pad, A.Extended(Some(block), delta).value, A.Extended(Some(bare), delta).value)
  {
    match delta {
      case TextDelta(text) => Assoc(pad, bare.text, text);
      case ThinkingDelta(thinking) => Assoc(pad, bare.thinking, thinking);
      case InputJsonDelta(json) => Assoc(pad, bare.inputJson, json);
      case _ =>
    }
  }

  lemma PayloadMore(events: seq<Event>, e: Event, k: nat)
    ensures PayloadAt(events + [e], k) ==
            if e.BlockStart? && e.index == Some(k) && e.block.Some? then Payload(e.block.value)
            else PayloadAt(events, k)
    ensures NoPayload(events + [e]) <==> NoPayload(events) && Bare(e)
  {
    assert (events + [e])[..|events|] == events;
  }

  lemma OneMorePadded(events: seq<Event>, i: nat, start: StartBlock, blocks: map<nat, A.Block>,
                      bare: map<nat, A.Block>, block: A.Block, bareBlock: A.Block)
    requires BlocksPadded(events, blocks, bare) && i !in blocks
    requires Padded(Payload(start), block, bareBlock)
    ensures BlocksPadded(events + [Start(i, start)], blocks[i := block], bare[i := bareBlock])
  {
    forall k: nat | k in blocks || k == i
      ensures PayloadAt(events + [Start(i, start)], k) == if k == i then Payload(start) else PayloadAt(events, k)
    {
      PayloadMore(events, Start(i, start), k);
    }
  }

  lemma OneMoreKnown(events: seq<Event>, i: nat, start: StartBlock, indexes: set<nat>)
    requires PayloadsKnown(events, indexes) && i !in indexes
    ensures PayloadsKnown(events + [Start(i, start)], indexes + {i})
  {
    var more := events + [Start(i, start)];
    forall k: nat | k in indexes ensures PayloadAt(more, k) == PayloadAt(events, k) {
      PayloadMore(events, Start(i, start), k);
    }
    PayloadMore(events, Start(i, start), i);
    assert PayloadAt(more, i) == Payload(start) && (Bare(Start(i, start)) <==> Payload(start) == "");
    assert (forall k <- indexes + {i} :: PayloadAt(more, k) == "") <==>
           (forall k <- indexes :: PayloadAt(events, k) == "") && Payload(start) == "";
  }

  lemma StartPadded(events: seq<Event>, e: Event, m: A.Message, bare: A.Message, g: Grammar)
    requires AllPadded(events, m, bare) && KindsHeld(g, bare.blocks)
    requires g.phase == Open && e.BlockStart? && Follow(g, EmptiedOne(e)).phase != Broken
    ensures A.Pushed(m, e).Ok? && A.Pushed(bare, EmptiedOne(e)).Ok?
    ensures AllPadded(events + [e], A.Pushed(m, e).value, A.Pushed(bare, EmptiedOne(e)).value)
  {
    var i, start := e.index.value, e.block.value;
    assert e == Start(i, start) && i !in m.blocks;
    var block, bareBlock := A.Opening(start).value, A.Opening(EmptiedBlock(start)).value;
    assert Payload(start) + "" == Payload(start);
    OneMorePadded(events, i, start, m.blocks, bare.blocks, block, bareBlock);
    OneMoreKnown(events, i, start, m.blocks.Keys);
    assert m.blocks[i := block].Keys == m.blocks.Keys + {i};
    assert A.Pushed(m, e).value == m.(blocks := m.blocks[i := block]);
    assert A.Pushed(bare, EmptiedOne(e)).value == bare.(blocks := bare.blocks[i := bareBlock]);
  }

  lemma DeltaPadded(events: seq<Event>, e: Event, m: A.Message, bare: A.Message, g: Grammar)
    requires AllPadded(events, m, bare) && KindsHeld(g, bare.blocks)
    requires g.phase == Open && e.BlockDelta? && Follow(g, e).phase != Broken
    ensures A.Pushed(m, e).Ok? && A.Pushed(bare, e).Ok?
    ensures AllPadded(events + [e], A.Pushed(m, e).value, A.Pushed(bare, e).value)
  {
    A.DeltaRead(g, e);
    var i, delta := e.index.value, e.delta.value;
    forall k: nat {
      PayloadMore(events, e, k);
    }
    assert i in m.blocks && Padded(PayloadAt(events, i), m.blocks[i], bare.blocks[i]);
    PaddedDelta(PayloadAt(events, i), m.blocks[i], bare.blocks[i], delta);
    assert A.Pushed(m, e).value.blocks == m.blocks[i := A.Extended(Some(m.blocks[i]), delta).value];
    assert A.Pushed(bare, e).value.blocks == bare.blocks[i := A.Extended(Some(bare.blocks[i]), delta).value];
  }

  lemma OtherPadded(events: seq<Event>, e: Event, m: A.Message, bare: A.Message)
    requires AllPadded(events, m, bare) && !e.BlockStart? && !e.BlockDelta?
    ensures A.Pushed(m, e).Ok? && A.Pushed(bare, e).Ok?
    ensures AllPadded(events + [e], A.Pushed(m, e).value, A.Pushed(bare, e).value)
  {
    forall k: nat {
      PayloadMore(events, e, k);
    }
  }

  /** The aggregator holds what it would hold, with the payloads in front. */
  lemma {:induction false} PayloadsInFront(events: seq<Event>)
    requires Sound(Emptied(events))
    ensures A.Fold(events).Ok? && A.Fold(Emptied(events)).Ok?
    ensures AllPadded(events, A.Fold(events).value, A.Fold(Emptied(events)).value)
  {
    if events != [] {
      var front, e := events[..|events| - 1], events[|events| - 1];
      var bare := Emptied(front);
      assert Emptied(events) == bare + [EmptiedOne(e)] && events == front + [e];
      assert Emptied(events)[..|bare|] == bare;
      SoundPrefix(Emptied(events), |bare|);
      PayloadsInFront(front);
      KindsAlways(bare);
      OneMoreFollowed(bare, EmptiedOne(e));
      PaddedOn(front, e);
    }
  }

  lemma PaddedOn(front: seq<Event>, e: Event)
    requires A.Fold(front).Ok? && A.Fold(Emptied(front)).Ok?
    requires AllPadded(front, A.Fold(front).value, A.Fold(Emptied(front)).value)
    requires var g := FollowAll(START, Emptied(front));
             KindsHeld(g, A.Fold(Emptied(front)).value.blocks) && Follow(g, EmptiedOne(e)).phase != Broken
    ensures var events := front + [e];
            && A.Fold(events).Ok? && A.Fold(Emptied(events)).Ok?
            && AllPadded(events, A.Fold(events).value, A.Fold(Emptied(events)).value)
  {
    var events, bare, g := front + [e], Emptied(front), FollowAll(START, Emptied(front));
    assert events[..|front|] == front && Emptied(events) == bare + [EmptiedOne(e)];
    assert Emptied(events)[..|bare|] == bare;
    var m, n := A.Fold(front).value, A.Fold(bare).value;
    if e.BlockStart? {
      StartPadded(front, e, m, n, g);
    } else if e.BlockDelta? {
      DeltaPadded(front, e, m, n, g);
    } else {
      OtherPadded(front, e, m, n);
    }
  }

  // ----- agreement -----

  lemma PaddedSpeech(pad: string, block: A.Block, bare: A.Block)
    requires Padded(pad, block, bare)
    ensures A.TextIn(block) == (if block.TextBlock? then pad else "") + A.TextIn(bare)
    ensures A.ThinkingIn(block) == (if block.ThinkingBlock? then pad else "") + A.ThinkingIn(bare)
  {
    assert "" + "" == "";
  }

  /** Texts that are no shorter part by part are the same when the parts are. */
  lemma PartsSame(a: string, b: string, pad: string, y: string)
    requires NoShorter(a, b)
    ensures NoShorter(a + (pad + y), b + y)
    ensures a + (pad + y) == b + y <==> a == b && pad == ""
  {
    assert |a + (pad + y)| == |a| + |pad| + |y| && |b + y| == |b| + |y|;
    assert pad == "" ==> pad + y == y;
  }

  predicate NoShorter(x: string, y: string) { |x| >= |y| && (|x| == |y| ==> x == y) }

  /** The texts are the same exactly when no text block has a payload; otherwise they are longer. */
  ghost predicate TextTold(events: seq<Event>, blocks: map<nat, A.Block>, bare: map<nat, A.Block>, order: seq<nat>) {
    var x, y := A.AllText(A.InOrder(blocks, order)), A.AllText(A.InOrder(bare, order));
    && NoShorter(x, y)
    && (x == y <==> forall k <- order :: k in blocks && blocks[k].TextBlock? ==> PayloadAt(events, k) == "")
  }

  /** ... and so is the thinking. */
  ghost predicate ThinkingTold(events: seq<Event>, blocks: map<nat, A.Block>, bare: map<nat, A.Block>,
                               order: seq<nat>) {
    var x, y := A.AllThinking(A.InOrder(blocks, order)), A.AllThinking(A.InOrder(bare, order));
    && NoShorter(x, y)
    && (x == y <==> forall k <- order :: k in blocks && blocks[k].ThinkingBlock? ==> PayloadAt(events, k) == "")
  }

  lemma TextMore(events: seq<Event>, blocks: map<nat, A.Block>, bare: map<nat, A.Block>, order: seq<nat>, k: nat)
    requires BlocksPadded(events, blocks, bare) && k in blocks && TextTold(events, blocks, bare, order)
    ensures TextTold(events, blocks, bare, order + [k])
  {
    var x, y := A.InOrder(blocks, order), A.InOrder(bare, order);
    A.InOrderMore(blocks, order, k);
    A.InOrderMore(bare, order, k);
    A.AllMore(x, blocks[k]);
    A.AllMore(y, bare[k]);
    var pad := if blocks[k].TextBlock? then PayloadAt(events, k) else "";
    PaddedSpeech(PayloadAt(events, k), blocks[k], bare[k]);
    PartsSame(A.AllText(x), A.AllText(y), pad, A.TextIn(bare[k]));
  }

  lemma ThinkingMore(events: seq<Event>, blocks: map<nat, A.Block>, bare: map<nat, A.Block>, order: seq<nat>, k: nat)
    requires BlocksPadded(events, blocks, bare) && k in blocks && ThinkingTold(events, blocks, bare, order)
    ensures ThinkingTold(events, blocks, bare, order + [k])
  {
    var x, y := A.InOrder(blocks, order), A.InOrder(bare, order);
    A.InOrderMore(blocks, order, k);
    A.InOrderMore(bare, order, k);
    A.AllMore(x, blocks[k]);
    A.AllMore(y, bare[k]);
    var pad := if blocks[k].ThinkingBlock? then PayloadAt(events, k) else "";
    PaddedSpeech(PayloadAt(events, k), blocks[k], bare[k]);
    PartsSame(A.AllThinking(x), A.AllThinking(y), pad, A.ThinkingIn(bare[k]));
  }

  lemma {:induction false} LongerByPayloads(events: seq<Event>, blocks: map<nat, A.Block>, bare: map<nat, A.Block>,
                                            order: seq<nat>)
    requires BlocksPadded(events, blocks, bare) && forall k <- order :: k in blocks
    ensures TextTold(events, blocks, bare, order) && ThinkingTold(events, blocks, bare, order)
  {
    if order != [] {
      var front, last := order[..|order| - 1], order[|order| - 1];
      assert order == front + [last] && last in order;
      LongerByPayloads(events, blocks, bare, front);
      TextMore(events, blocks, bare, front, last);
      ThinkingMore(events, blocks, bare, front, last);
    }
  }

  /** The client's calls have the aggregator's inputs exactly when no tool use started with one. */
  lemma CallsAgreeIff(events: seq<Event>, m: A.Message, bare: A.Message, order: seq<nat>, calls: map<nat, Call>)
    requires AllPadded(events, m, bare) && ToolCallsAgree(order, bare.blocks, calls)
    ensures ToolCallsAgree(order, m.blocks, calls) <==>
            forall k <- m.blocks :: m.blocks[k].ToolUseBlock? ==> PayloadAt(events, k) == ""
  {
    forall k | k in m.blocks ensures m.blocks[k].ToolUseBlock? <==> bare.blocks[k].ToolUseBlock? {
      assert Padded(PayloadAt(events, k), m.blocks[k], bare.blocks[k]);
    }
    forall j: nat | j < |order|
      ensures Same(m.blocks[order[j]], calls[j]) <==> PayloadAt(events, order[j]) == ""
    {
      var pad, y := PayloadAt(events, order[j]), bare.blocks[order[j]];
      assert Padded(pad, m.blocks[order[j]], y) && Same(y, calls[j]);
      assert |pad + y.inputJson| == |pad| + |y.inputJson|;
      assert "" + y.inputJson == y.inputJson;
    }
    if ToolCallsAgree(order, m.blocks, calls) {
      forall k | k in m.blocks && m.blocks[k].ToolUseBlock? ensures PayloadAt(events, k) == "" {
        var j :| 0 <= j < |order| && order[j] == k;
      }
    }
  }

  /** On streams that are well formed but for payloads, client and aggregator agree if and only if no
      text, thinking or tool use block starts with a payload. */
  lemma PayloadsAgreeIff(events: seq<Event>)
    requires CompleteButForPayloads(events)
    ensures Agree(events) <==> NoPayload(events)
  {
    var bare := Emptied(events);
    TwoObserversAgree(bare);
    SameForTheClient(events);
    PayloadsInFront(events);
    var m, n := A.Fold(events).value, A.Fold(bare).value;
    var order := Ascending(m.blocks.Keys);
    AscendingSound(m.blocks.Keys);
    LongerByPayloads(events, m.blocks, n.blocks, order);
    CallsAgreeIff(events, m, n, ToolOrder(events), Listen(AdaptAll(events).1).calls);
    AgreeIf(events, m.blocks, order);
  }

  lemma AgreeIf(events: seq<Event>, blocks: map<nat, A.Block>, order: seq<nat>)
    requires PayloadsKnown(events, blocks.Keys) && forall k: nat :: k in order <==> k in blocks
    ensures NoPayload(events) <==>
            && (forall k <- order :: k in blocks && blocks[k].TextBlock? ==> PayloadAt(events, k) == "")
            && (forall k <- order :: k in blocks && blocks[k].ThinkingBlock? ==> PayloadAt(events, k) == "")
            && (forall k <- blocks :: blocks[k].ToolUseBlock? ==> PayloadAt(events, k) == "")
  {
    forall k | k in blocks ensures k in order {}
  }
}
