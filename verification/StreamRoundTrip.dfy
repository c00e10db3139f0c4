/** OpenAI chunks to Anthropic events and back to OpenAI chunks: what the last client holds. */
module StreamRoundTrip {
  import opened Common
  import opened AnthropicEvents
  import opened WellFormed
  import opened ToolCalls
  import opened ToolNames
  import opened AnthropicStream
  import opened AnthropicStreamTheorems
  import opened TranslationTheorems
  import opened TranslationContent
  import opened TranslationCalls
  import opened AggregatedTranslation
  import A = Aggregator
  import O = OpenAiChat

  // ----- the stop reason -----

  /** The stop reason an Anthropic client reads off the whole stream. */
  lemma ReasonIsSent(reasoning: bool, policy: ThinkingPolicy, id: string, model: string,
                         chunks: seq<Chunk>, outputText: Option<string>)
    ensures var sent := Translation(NewTranslator(reasoning, policy), id, model, chunks, outputText);
            A.Fold(sent).Ok?
              && A.Fold(sent).value.stopReason == Some(SentReason(LastReason(chunks), AllDeltas(chunks) == []))
  {
    var start := NewTranslator(reasoning, policy);
    var t := AllFlushed(start, id, model, chunks, outputText);
    TranslationIsFaithful(reasoning, policy, id, model, chunks, outputText);
    AcceptedIsComplete(Translation(start, id, model, chunks, outputText));
    A.AggregatorRebuilds(Translation(start, id, model, chunks, outputText));
    ToolBlocksAreCalls(reasoning, policy, id, model, chunks, outputText);
    CallsIffDeltas(t.table, AllDeltas(chunks));
    FoldTwo(t.sent, t.stopReason.GetOr(if t.table.calls == map[] then "end_turn" else "tool_use"));
  }

  lemma FoldTwo(sent: seq<Event>, reason: string)
    requires A.Fold((sent + [MessageDelta(Some(reason))]) + [MessageStop]).Ok?
    ensures A.Fold((sent + [MessageDelta(Some(reason))]) + [MessageStop]).value.stopReason == Some(reason)
  {
    var one := sent + [MessageDelta(Some(reason))];
    assert one[..|one| - 1] == sent;
    assert (one + [MessageStop])[..|one|] == one;
  }

  /** Finish reasons an OpenAI client can be told. */
  function Canonical(reason: string): string {
    match reason
    case "length" => "length"
    case "tool_calls" => "tool_calls"
    case "function_call" => "tool_calls"
    case "tool_use" => "tool_calls"
    case _ => "stop"
  }

  /** What the last client is told, given the upstream reason and whether there were no calls. */
  function ExpectedFinish(reason: Option<string>, noCalls: bool): string {
    match reason
    case Some(r) => Canonical(r)
    case None => if noCalls then "stop" else "tool_calls"
  }

  /** What the Anthropic client is told in between. */
  function SentReason(reason: Option<string>, noCalls: bool): string {
    Mapped(reason).GetOr(if noCalls then "end_turn" else "tool_use")
  }

  lemma ReasonThereAndBack(reason: Option<string>, noCalls: bool)
    ensures O.MapStopReason(SentReason(reason, noCalls)) == ExpectedFinish(reason, noCalls)
  {}

  /** What the Anthropic client is told of the reason: `max_tokens` for the reason `length`; `tool_use` for
      the reasons that mean tool calls, or if none was given and the chunks mention a tool call; `end_turn`
      for all others. */
  lemma TranslatedReason(reasoning: bool, policy: ThinkingPolicy, id: string, model: string,
                         chunks: seq<Chunk>, outputText: Option<string>)
    ensures var sent := Translation(NewTranslator(reasoning, policy), id, model, chunks, outputText);
            var last := LastReason(chunks);
            var limit := last == Some("length");
            var tools := || last == Some("tool_calls") || last == Some("function_call") || last == Some("tool_use")
                         || (last == None && AllDeltas(chunks) != []);
            && A.Fold(sent).Ok?
            && var told := A.Fold(sent).value.stopReason;
               && (told == Some("max_tokens") <==> limit)
               && (told == Some("tool_use") <==> tools)
               && (told == Some("end_turn") <==> !limit && !tools)
  {
    ReasonIsSent(reasoning, policy, id, model, chunks, outputText);
    ReasonTable(LastReason(chunks), AllDeltas(chunks) == []);
  }

  lemma ReasonTable(last: Option<string>, noCalls: bool)
    ensures var limit := last == Some("length");
            var tools := || last == Some("tool_calls") || last == Some("function_call") || last == Some("tool_use")
                         || (last == None && !noCalls);
            SentReason(last, noCalls) == if limit then "max_tokens" else if tools then "tool_use" else "end_turn"
  {}

  /** The call that the last client should hold for a tool call with the given updates. */
  function ExpectedCall(outs: seq<Out>): Option<O.Call> {
    if outs == [] || !outs[0].Started? then None
    else Some(O.Call(outs[0].id, outs[0].name, SentText(outs)))
  }

  /** For every stream of chunks the client behind translator and adapter gets one role, one finish
      reason, and the text and thinking that an Anthropic client would read. */
  lemma SpeechThereAndBack(reasoning: bool, policy: ThinkingPolicy, id: string, model: string,
                           chunks: seq<Chunk>, outputText: Option<string>)
    ensures var sent := Translation(NewTranslator(reasoning, policy), id, model, chunks, outputText);
            var out := O.AdaptAll(sent).1;
            var reply := O.Listen(out);
            && sent != [] && sent[0].MessageStart? && O.Enveloped(out, sent[0].model.GetOr(""), true)
            && (reply.text, reply.thinking) == Reading(reasoning, policy, chunks, outputText)
  {
    var sent := Translation(NewTranslator(reasoning, policy), id, model, chunks, outputText);
    TranslationIsFaithful(reasoning, policy, id, model, chunks, outputText);
    TranslationSays(reasoning, policy, id, model, chunks, outputText);
    AcceptedIsComplete(sent);
    O.EnvelopedAlways(sent);
    O.SpeechIsHeard(sent);
  }

  /** The client's calls, numbered by `order`, are the upstream calls that said anything: every one of
      these is there once, with the id and name its deltas tell, its arguments are what the provider sent exactly when
      the fragments are intact, and there are no other calls. */
  ghost predicate CallsArrive(calls: map<nat, O.Call>, order: seq<nat>, table: Table, deltas: seq<Addressed>) {
    && Indexed(table)
    && (forall t: nat :: t in table.calls <==> Only(t, deltas) != [])
    && (forall j: nat :: j in calls <==> j < |order|)
    && (forall i, j :: 0 <= i < j < |order| ==> order[i] != order[j])
    && (forall k <- order :: HasCall(table, k))
    && (forall t <- table.calls :: Arrived(calls, order, t, IndexOf(table, t), Only(t, deltas)))
  }

  ghost predicate Arrived(calls: map<nat, O.Call>, order: seq<nat>, t: nat, index: nat, ds: seq<ToolDelta>) {
    var expected, fragments := ExpectedCall(Lifetime(t, index, ds).1), ArgumentsOf(ds);
    && (expected.Some? <==> index in order) && (expected.None? <==> Nameless(ds))
    && (expected.Some? ==> AnnouncedAs(ds, expected.value.id, expected.value.name))
    && (forall j: nat :: j < |order| && order[j] == index ==> j in calls && Some(calls[j]) == expected)
    && (expected.Some? ==> (expected.value.arguments == Flatten(fragments) <==> Intact(fragments)))
    && (expected.None? ==> Flatten(fragments) == "" || !Intact(fragments))
  }

  /** Tool calls there and back: the client's calls are in one-to-one correspondence with the upstream
      calls that said anything, numbered in the order in which their blocks were started. */
  lemma CallsThereAndBack(reasoning: bool, policy: ThinkingPolicy, id: string, model: string,
                          chunks: seq<Chunk>, outputText: Option<string>)
    ensures var start := NewTranslator(reasoning, policy);
            var sent := Translation(start, id, model, chunks, outputText);
            CallsArrive(O.Listen(O.AdaptAll(sent).1).calls, O.ToolOrder(sent),
                        AllFlushed(start, id, model, chunks, outputText).table, AllDeltas(chunks))
  {
    var start := NewTranslator(reasoning, policy);
    var sent := Translation(start, id, model, chunks, outputText);
    TranslationIsFaithful(reasoning, policy, id, model, chunks, outputText);
    ClientRebuildsTheMessage(reasoning, policy, id, model, chunks, outputText);
    AcceptedIsComplete(sent);
    O.TwoObserversAgree(sent);
    MatchArrives(O.Listen(O.AdaptAll(sent).1).calls, O.ToolOrder(sent), A.Fold(sent).value.blocks,
                 AllFlushed(start, id, model, chunks, outputText).table, AllDeltas(chunks));
  }

  lemma MatchArrives(calls: map<nat, O.Call>, order: seq<nat>, blocks: map<nat, A.Block>, table: Table,
                     deltas: seq<Addressed>)
    requires O.ToolCallsAgree(order, blocks, calls) && ToolBlocksMatch(blocks, table, deltas)
    ensures CallsArrive(calls, order, table, deltas)
  {
    forall k | k in order ensures HasCall(table, k) {
      var j :| 0 <= j < |order| && order[j] == k;
      assert O.Same(blocks[order[j]], calls[j]);
    }
    forall t | t in table.calls ensures Arrived(calls, order, t, IndexOf(table, t), Only(t, deltas)) {
      CallArrived(calls, order, blocks, t, IndexOf(table, t), Only(t, deltas));
    }
  }

  lemma CallArrived(calls: map<nat, O.Call>, order: seq<nat>, blocks: map<nat, A.Block>, t: nat, index: nat,
                    ds: seq<ToolDelta>)
    requires O.ToolCallsAgree(order, blocks, calls) && CallHeld(blocks, t, index, ds)
    ensures Arrived(calls, order, t, index, ds)
  {
    var held := A.Lookup(blocks, index);
    if index in order {
      var j :| 0 <= j < |order| && order[j] == index;
      assert O.Same(blocks[order[j]], calls[j]);
    }
  }

  /** The finish reason comes back in canonical form; without one, it tells whether the chunks
      mentioned tool calls. */
  lemma {:induction false} FinishThereAndBack(reasoning: bool, policy: ThinkingPolicy, id: string, model: string,
                                              chunks: seq<Chunk>, outputText: Option<string>)
    ensures var sent := Translation(NewTranslator(reasoning, policy), id, model, chunks, outputText);
            O.Listen(O.AdaptAll(sent).1).finish == Some(ExpectedFinish(LastReason(chunks), AllDeltas(chunks) == []))
  {
    var sent := Translation(NewTranslator(reasoning, policy), id, model, chunks, outputText);
    TranslationIsFaithful(reasoning, policy, id, model, chunks, outputText);
    ReasonIsSent(reasoning, policy, id, model, chunks, outputText);
    FinishHeard(sent, LastReason(chunks), AllDeltas(chunks) == []);
  }

  lemma FinishHeard(sent: seq<Event>, reason: Option<string>, noCalls: bool)
    requires Accepted(sent) && A.Fold(sent).Ok?
    requires A.Fold(sent).value.stopReason == Some(SentReason(reason, noCalls))
    ensures O.Listen(O.AdaptAll(sent).1).finish == Some(ExpectedFinish(reason, noCalls))
  {
    AcceptedIsComplete(sent);
    O.EnvelopedAlways(sent);
    O.LastHeard(sent);
    O.SameStopReason(sent);
    FinishIs(O.AdaptAll(sent).0, reason, noCalls);
  }

  lemma FinishIs(a: O.Adapter, reason: Option<string>, noCalls: bool)
    requires a.stopReason == Some(SentReason(reason, noCalls))
    ensures O.FinishReason(a.stopReason, a.toolUses != map[]) == ExpectedFinish(reason, noCalls)
  {
    ReasonThereAndBack(reason, noCalls);
  }
}
