/** Streams with blocks of types that neither reader knows, such as server tool uses: when aggregator
    and adapter still agree (unigateway-protocol/src/responses/aggregator.rs:36-242,
    openai_chat.rs:106-175, 405-435). */
module ForeignBlocks {
  import opened Common
  import opened AnthropicEvents
  import opened WellFormed
  import opened OpenAiChat
  import A = Aggregator

  // ----- foreign blocks -----

  predicate StartsForeign(e: Event) { e.BlockStart? && e.index.Some? && e.block == Some(StartUnknown) }

  /** The indexes at which blocks of unknown types are started. */
  function Foreign(events: seq<Event>): set<nat> {
    if events == [] then {}
    else
      var e := events[|events| - 1];
      Foreign(events[..|events| - 1]) + if StartsForeign(e) then {e.index.value} else {}
  }

  /** The event concerns one of these blocks. */
  predicate Concerns(e: Event, foreign: set<nat>) {
    AddressOf(e).Some? && AddressOf(e).value in foreign
  }

  predicate IsInput(e: Event) { e.BlockDelta? && e.delta.Some? && e.delta.value.InputJsonDelta? }

  /** What a foreign block gets: its start, deltas of unknown kinds or of tool input, its stop. */
  predicate Usual(e: Event) {
    match e
    case BlockStart(_, block) => block == Some(StartUnknown)
    case BlockDelta(_, delta) => delta.Some? && (delta.value.UnknownDelta? || delta.value.InputJsonDelta?)
    case _ => true
  }

  /** The stream as if the foreign blocks were not there. */
  function Without(events: seq<Event>, foreign: set<nat>): seq<Event> {
    if events == [] then []
    else
      var e := events[|events| - 1];
      Without(events[..|events| - 1], foreign) + if Concerns(e, foreign) then [] else [e]
  }

  /** Well formed but for foreign blocks. */
  ghost predicate CompleteBesides(events: seq<Event>) {
    && Complete(Without(events, Foreign(events)))
    && forall e <- events :: Concerns(e, Foreign(events)) ==> Usual(e)
  }

  /** No foreign block gets tool input. */
  ghost predicate NoForeignInput(events: seq<Event>) {
    forall e <- events :: Concerns(e, Foreign(events)) ==> !IsInput(e)
  }

  // ----- agreement -----

  /** Client and aggregator agree on everything, as `TwoObserversAgree` says of well-formed streams. */
  ghost predicate Agree(events: seq<Event>) {
    && A.Fold(events).Ok?
    && var chunks, m := AdaptAll(events).1, A.Fold(events).value;
       var reply, content := Listen(chunks), A.InOrder(m.blocks, Ascending(m.blocks.Keys));
       && chunks != [] && Enveloped(chunks, chunks[0].model, true)
       && reply.text == A.AllText(content) && reply.thinking == A.AllThinking(content)
       && reply.finish == Some(FinishReason(m.stopReason, ToolOrder(events) != []))
       && ToolCallsAgree(ToolOrder(events), m.blocks, reply.calls)
  }

  /** An event that neither reader heeds. */
  predicate Ignored(e: Event) { Usual(e) && !IsInput(e) && AddressOf(e).Some? }

  lemma IgnoredBoth(m: A.Message, a: Adapter, e: Event)
    requires Ignored(e)
    ensures A.Pushed(m, e) == Ok(m) && Adapted(a, e) == (a, [])
  {
    if e.BlockDelta? {
      assert A.Put(m.blocks, e.index.value, A.Lookup(m.blocks, e.index.value)) == m.blocks;
    }
  }

  /** Both readers see the stream without what they ignore. */
  lemma {:induction false} SameWithout(events: seq<Event>, foreign: set<nat>)
    requires forall e <- events :: Concerns(e, foreign) ==> Ignored(e)
    ensures A.Fold(Without(events, foreign)) == A.Fold(events)
    ensures AdaptAll(Without(events, foreign)) == AdaptAll(events)
    ensures ToolOrder(Without(events, foreign)) == ToolOrder(events)
  {
    if events != [] {
      var front, e := events[..|events| - 1], events[|events| - 1];
      assert forall x <- front :: x in events;
      SameWithout(front, foreign);
      assert e in events;
      SameWithoutStep(front, e, foreign);
      assert events == front + [e];
    }
  }

  lemma SameWithoutStep(front: seq<Event>, e: Event, foreign: set<nat>)
    requires Concerns(e, foreign) ==> Ignored(e)
    requires A.Fold(Without(front, foreign)) == A.Fold(front)
    requires AdaptAll(Without(front, foreign)) == AdaptAll(front)
    requires ToolOrder(Without(front, foreign)) == ToolOrder(front)
    ensures A.Fold(Without(front + [e], foreign)) == A.Fold(front + [e])
    ensures AdaptAll(Without(front + [e], foreign)) == AdaptAll(front + [e])
    ensures ToolOrder(Without(front + [e], foreign)) == ToolOrder(front + [e])
  {
    var events, kept := front + [e], Without(front, foreign);
    assert events[..|front|] == front;
    if Concerns(e, foreign) {
      assert Without(events, foreign) == kept + [] == kept;
      IgnoredBoth(if A.Fold(front).Ok? then A.Fold(front).value else A.EMPTY, AdaptAll(front).0, e);
      assert AdaptAll(front).1 + [] == AdaptAll(front).1;
    } else {
      assert (kept + [e])[..|kept|] == kept;
    }
  }

  // ----- foreign tool input -----

  predicate InputAt(e: Event, i: nat) { IsInput(e) && AddressOf(e) == Some(i) }

  lemma ForeignStep(m: A.Message, e: Event, i: nat)
    requires AddressOf(e) == Some(i) ==> Usual(e)
    requires i in m.blocks ==> m.blocks[i].ToolUseBlock?
    requires A.Pushed(m, e).Ok?
    ensures var blocks := A.Pushed(m, e).value.blocks;
            && (i in blocks ==> blocks[i].ToolUseBlock?)
            && (i in m.blocks || InputAt(e, i) ==> i in blocks)
  {}

  /** The aggregator makes a tool block of tool input for a block it does not know. */
  lemma {:induction false} ForeignInputHeld(events: seq<Event>, i: nat)
    requires forall e <- events :: AddressOf(e) == Some(i) ==> Usual(e)
    requires A.Fold(events).Ok?
    ensures var blocks := A.Fold(events).value.blocks;
            && (i in blocks ==> blocks[i].ToolUseBlock?)
            && ((exists e <- events :: InputAt(e, i)) ==> i in blocks)
  {
    if events != [] {
      var front, e := events[..|events| - 1], events[|events| - 1];
      assert events == front + [e] && e in events && forall x <- front :: x in events;
      ForeignInputHeld(front, i);
      ForeignStep(A.Fold(front).value, e, i);
    }
  }

  lemma {:induction false} NotOrdered(events: seq<Event>, i: nat)
    requires forall e <- events :: AddressOf(e) == Some(i) ==> Usual(e)
    ensures i !in ToolOrder(events)
  {
    if events != [] {
      var front, e := events[..|events| - 1], events[|events| - 1];
      assert e in events && forall x <- front :: x in events;
      NotOrdered(front, i);
    }
  }

  /** On streams that are well formed but for foreign blocks, client and aggregator agree if and only
      if no foreign block gets tool input. */
  lemma ForeignBlocksAgreeIff(events: seq<Event>)
    requires CompleteBesides(events)
    ensures Agree(events) <==> NoForeignInput(events)
  {
    var foreign := Foreign(events);
    if NoForeignInput(events) {
      forall e | e in events && Concerns(e, foreign) ensures Ignored(e) {}
      SameWithout(events, foreign);
      TwoObserversAgree(Without(events, foreign));
    } else {
      var e :| e in events && Concerns(e, foreign) && IsInput(e);
      ForeignInputSplits(events, e.index.value);
    }
  }

  lemma ForeignInputSplits(events: seq<Event>, i: nat)
    requires i in Foreign(events) && forall e <- events :: Concerns(e, Foreign(events)) ==> Usual(e)
    requires exists e <- events :: InputAt(e, i)
    ensures !Agree(events)
  {
    if A.Fold(events).Ok? {
      ForeignInputHeld(events, i);
      NotOrdered(events, i);
    }
  }

  /** Without foreign blocks, `Agree` is what holds of every well-formed stream. */
  lemma WellFormedAgree(events: seq<Event>)
    requires Complete(events)
    ensures Agree(events)
  {
    TwoObserversAgree(events);
  }

  // ----- a stream on which they do not -----

  /** A server tool use at index 0 and a tool use at index 1, the first OpenAI call. */
  const MIXED := [MessageStart(None, None, None), BlockStart(Some(0), Some(StartUnknown)),
                  Start(1, StartToolUse("id", "name", "")), Send(0, InputJsonDelta("{}"))]

  lemma AggregatorKeepsApart()
    ensures A.Fold(MIXED).Ok? && A.Lookup(A.Fold(MIXED).value.blocks, 1) == Some(A.ToolUseBlock("id", "name", ""))
  {
    var s1, s2, s3 := MIXED[..1], MIXED[..2], MIXED[..3];
    assert s1[..0] == [] && s2[..1] == s1 && s3[..2] == s2 && MIXED[..|MIXED| - 1] == s3;
    assert A.Fold(s1) == Ok(A.EMPTY);
    assert A.Fold(s2) == Ok(A.EMPTY);
    assert A.Fold(s3) == Ok(A.EMPTY.(blocks := map[1 := A.ToolUseBlock("id", "name", "")]));
  }

  /** One event, for adapter and client at once. */
  lemma HearOne(front: seq<Event>, e: Event, a: Adapter, r: Reply) returns (b: Adapter, q: Reply)
    requires AdaptAll(front).0 == a && Listen(AdaptAll(front).1) == r
    ensures b == Adapted(a, e).0 && q == Effect(a, r, e)
    ensures AdaptAll(front + [e]).0 == b && Listen(AdaptAll(front + [e]).1) == q
  {
    var events := front + [e];
    assert events[..|events| - 1] == front;
    OneMoreHeard(events);
    b, q := Adapted(a, e).0, Effect(a, r, e);
  }

  /** The input of the server tool use becomes that of the call. */
  lemma ForeignInputMisplaced()
    ensures A.Fold(MIXED).Ok? && A.Lookup(A.Fold(MIXED).value.blocks, 1) == Some(A.ToolUseBlock("id", "name", ""))
    ensures var calls := Listen(AdaptAll(MIXED).1).calls; 0 in calls && calls[0] == Call("id", "name", "{}")
  {
    AggregatorKeepsApart();
    var e0, e1, e2, e3 := MIXED[0], MIXED[1], MIXED[2], MIXED[3];
    var a, r := HearOne([], e0, NEW, SILENCE);
    a, r := HearOne([] + [e0], e1, a, r);
    a, r := HearOne([] + [e0] + [e1], e2, a, r);
    assert a.toolUses == map[1 := 0] && r.calls == map[0 := Call("id", "name", "")];
    a, r := HearOne([] + [e0] + [e1] + [e2], e3, a, r);
    assert "" + "{}" == "{}";
    assert [] + [e0] + [e1] + [e2] + [e3] == MIXED;
  }
}
