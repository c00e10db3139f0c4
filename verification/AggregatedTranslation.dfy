/** The translator and the aggregator together: what an Anthropic client rebuilds from a
    translated OpenAI stream. */
module AggregatedTranslation {
  import opened Common
  import opened AnthropicEvents
  import opened WellFormed
  import opened ToolCalls
  import opened ToolNames
  import opened AnthropicStream
  import opened AnthropicStreamTheorems
  import opened TranslationTheorems
  import opened TranslationContent
  import opened TranslationCalls
  import opened TranslationFraming
  import A = Aggregator

  lemma {:induction false} RenderedJson(index: nat, outs: seq<Out>)
    ensures A.JsonSent(Rendered(index, outs)) == SentText(outs)
    ensures |Rendered(index, outs)| == |outs|
    ensures outs != [] && outs[0].Started? ==>
              Rendered(index, outs)[0] == Start(index, StartToolUse(outs[0].id, outs[0].name, ""))
  {
    if outs != [] {
      var front := outs[..|outs| - 1];
      RenderedJson(index, front);
      var r := Rendered(index, outs);
      assert r[..|r| - 1] == Rendered(index, front);
      assert front != [] ==> front[0] == outs[0];
    }
  }

  /** What a client should hold for a tool call: nothing if it never said anything, else the
      announced id and name with all fragments. */
  function ToolBlock(outs: seq<Out>): Option<A.Block> {
    if outs == [] || !outs[0].Started? then None
    else Some(A.ToolUseBlock(outs[0].id, outs[0].name, SentText(outs)))
  }

  lemma RenderedDescribed(index: nat, outs: seq<Out>)
    requires outs != [] ==> outs[0].Started?
    ensures A.Described(Rendered(index, outs)) == ToolBlock(outs)
  {
    RenderedJson(index, outs);
  }

  lemma CallRebuilt(sent: seq<Event>, t: nat, index: nat, ds: seq<ToolDelta>)
    requires Accepted(sent) && CallSent(sent, t, index, ds)
    ensures A.Fold(sent).Ok?
    ensures A.Lookup(A.Fold(sent).value.blocks, index) == ToolBlock(Lifetime(t, index, ds).1)
  {
    AcceptedIsComplete(sent);
    A.AggregatorRebuilds(sent);
    ArgumentsSentOnce(t, index, ds);
    var outs := Lifetime(t, index, ds).1;
    if outs != [] {
      assert outs[..|outs| - 1][0] == outs[0];
    }
    RenderedDescribed(index, outs);
    RenderedJson(index, outs);
    BegunAlways(sent, index);
  }

  /** A tool block was started as one. */
  lemma {:induction false} ToolBlockWasStarted(events: seq<Event>, k: nat)
    requires Project(events, k) != []
    requires A.Described(Project(events, k)).Some? && A.Described(Project(events, k)).value.ToolUseBlock?
    ensures k in ToolStarts(events)
  {
    var front, e := events[..|events| - 1], events[|events| - 1];
    if Project(front, k) != [] {
      assert Project(front, k)[0] == Project(events, k)[0];
      ToolBlockWasStarted(front, k);
    } else {
      assert Project(events, k) == [e];
    }
  }

  /** The block at `index` is what the deltas of call `t` amount to: it has the id and name that these
      tell, and its input is what the provider sent exactly when the fragments are intact. A call without
      a block has neither id nor name, and lost all it had, if anything. */
  ghost predicate CallHeld(blocks: map<nat, A.Block>, t: nat, index: nat, ds: seq<ToolDelta>) {
    var fragments, held := ArgumentsOf(ds), A.Lookup(blocks, index);
    && held == ToolBlock(Lifetime(t, index, ds).1)
    && (held.None? <==> Nameless(ds))
    && (held.Some? ==> held.value.ToolUseBlock? && AnnouncedAs(ds, held.value.id, held.value.name))
    && (held.Some? ==> (held.value.inputJson == Flatten(fragments) <==> Intact(fragments)))
    && (held.None? ==> Flatten(fragments) == "" || !Intact(fragments))
  }

  /** The tool blocks are the calls that said anything, each at an index of its own. */
  ghost predicate ToolBlocksMatch(blocks: map<nat, A.Block>, table: Table, deltas: seq<Addressed>) {
    && Indexed(table)
    && (forall t: nat :: t in table.calls <==> Only(t, deltas) != [])
    && (forall t <- table.calls :: CallHeld(blocks, t, IndexOf(table, t), Only(t, deltas)))
    && (forall k <- blocks :: blocks[k].ToolUseBlock? ==> HasCall(table, k))
  }

  /** For every stream of chunks: the aggregator refuses no event and ends complete; its text and
      thinking are what the chunks tell; it holds one tool block for every call that said anything,
      with the id and name that its deltas tell, and no other tool block; and a block's input is what the
      provider sent, glued together, if and only if no fragment repeats anything and the whole is plain. */
  lemma ClientRebuildsTheMessage(reasoning: bool, policy: ThinkingPolicy, id: string, model: string,
                                 chunks: seq<Chunk>, outputText: Option<string>)
    ensures var start := NewTranslator(reasoning, policy);
            var message := A.Fold(Translation(start, id, model, chunks, outputText));
            && message.Ok? && message.value.completed
            && var content := A.InOrder(message.value.blocks, Ascending(message.value.blocks.Keys));
               && (A.AllText(content), A.AllThinking(content)) == Reading(reasoning, policy, chunks, outputText)
               && ToolBlocksMatch(message.value.blocks, AllFlushed(start, id, model, chunks, outputText).table,
                                  AllDeltas(chunks))
  {
    TranslationIsFaithful(reasoning, policy, id, model, chunks, outputText);
    TranslationSays(reasoning, policy, id, model, chunks, outputText);
    ToolBlocksAreCalls(reasoning, policy, id, model, chunks, outputText);
    var start := NewTranslator(reasoning, policy);
    var sent := Translation(start, id, model, chunks, outputText);
    AcceptedIsComplete(sent);
    A.AggregatorRebuilds(sent);
    A.MessageTextIsTextSent(sent);
    BlocksMatch(sent, AllFlushed(start, id, model, chunks, outputText).table, AllDeltas(chunks));
  }

  lemma BlocksMatch(sent: seq<Event>, table: Table, deltas: seq<Addressed>)
    requires Accepted(sent) && Indexed(table)
    requires forall t: nat :: t in table.calls <==> Only(t, deltas) != []
    requires forall t <- table.calls :: CallSent(sent, t, IndexOf(table, t), Only(t, deltas))
    requires forall k <- ToolStarts(sent) :: HasCall(table, k)
    ensures A.Fold(sent).Ok? && ToolBlocksMatch(A.Fold(sent).value.blocks, table, deltas)
  {
    AcceptedIsComplete(sent);
    A.AggregatorRebuilds(sent);
    var blocks := A.Fold(sent).value.blocks;
    forall t | t in table.calls ensures CallHeld(blocks, t, IndexOf(table, t), Only(t, deltas)) {
      CallIsHeld(sent, t, IndexOf(table, t), Only(t, deltas));
    }
    forall k | k in blocks && blocks[k].ToolUseBlock? ensures HasCall(table, k) {
      BlockWasStarted(sent, blocks, k);
    }
  }

  lemma CallIsHeld(sent: seq<Event>, t: nat, index: nat, ds: seq<ToolDelta>)
    requires Accepted(sent) && CallSent(sent, t, index, ds)
    ensures A.Fold(sent).Ok? && CallHeld(A.Fold(sent).value.blocks, t, index, ds)
  {
    CallRebuilt(sent, t, index, ds);
    SentAsProvidedIff(t, index, ds);
    ArgumentsSentOnce(t, index, ds);
    AnnouncedByTheDeltas(t, index, ds);
  }

  lemma BlockWasStarted(sent: seq<Event>, blocks: map<nat, A.Block>, k: nat)
    requires k in blocks && blocks[k].ToolUseBlock? && A.Described(Project(sent, k)) == Some(blocks[k])
    ensures k in ToolStarts(sent)
  {
    ToolBlockWasStarted(sent, k);
  }

  // ----- the snapshot -----

  /** The arguments that a client holds for the call can be read. */
  predicate Understood<J>(table: Table, deltas: seq<Addressed>, t: nat, parse: string -> Option<J>)
    requires t in table.calls && Indexed(table)
  {
    var text := SentText(Lifetime(t, IndexOf(table, t), Only(t, deltas)).1);
    text == "" || parse(text).Some?
  }

  lemma SilentCall(t: nat, index: nat, ds: seq<ToolDelta>)
    ensures ToolBlock(Lifetime(t, index, ds).1).None? ==> SentText(Lifetime(t, index, ds).1) == ""
  {
    ArgumentsSentOnce(t, index, ds);
    var outs := Lifetime(t, index, ds).1;
    if outs != [] {
      assert outs[..|outs| - 1] != [] ==> outs[..|outs| - 1][0] == outs[0];
    }
  }

  lemma ReadableIff<J>(blocks: map<nat, A.Block>, table: Table, deltas: seq<Addressed>, parse: string -> Option<J>)
    requires ToolBlocksMatch(blocks, table, deltas)
    ensures (forall k <- blocks :: A.Readable(blocks[k], parse)) <==>
            forall t <- table.calls :: Understood(table, deltas, t, parse)
  {
    forall t | t in table.calls
      ensures var index := IndexOf(table, t);
              Understood(table, deltas, t, parse) <==> (index in blocks ==> A.Readable(blocks[index], parse))
    {
      assert CallHeld(blocks, t, IndexOf(table, t), Only(t, deltas));
      SilentCall(t, IndexOf(table, t), Only(t, deltas));
    }
    forall k | k in blocks && blocks[k].ToolUseBlock? ensures HasCall(table, k) {}
  }

  /** The client's snapshot of a translated stream succeeds if and only if the arguments it holds for
      every call can be read, and so it does when they are intact and the provider's can. */
  lemma SnapshotSucceedsIff<J>(reasoning: bool, policy: ThinkingPolicy, id: string, model: string,
                               chunks: seq<Chunk>, outputText: Option<string>, empty: J, parse: string -> Option<J>)
    ensures var start, deltas := NewTranslator(reasoning, policy), AllDeltas(chunks);
            var message := A.Fold(Translation(start, id, model, chunks, outputText));
            var table := AllFlushed(start, id, model, chunks, outputText).table;
            && message.Ok? && Indexed(table)
            && (A.Snapshotted(message.value, empty, parse).Ok? <==>
                forall t <- table.calls :: Understood(table, deltas, t, parse))
            && ((forall t: nat :: t in table.calls ==>
                   var fragments := ArgumentsOf(Only(t, deltas));
                   Intact(fragments) && (Flatten(fragments) == "" || parse(Flatten(fragments)).Some?))
                ==> A.Snapshotted(message.value, empty, parse).Ok?)
  {
    ClientRebuildsTheMessage(reasoning, policy, id, model, chunks, outputText);
    var start, deltas := NewTranslator(reasoning, policy), AllDeltas(chunks);
    var message := A.Fold(Translation(start, id, model, chunks, outputText)).value;
    var table := AllFlushed(start, id, model, chunks, outputText).table;
    A.SnapshotFailsIff(message, empty, parse);
    ReadableIff(message.blocks, table, deltas, parse);
    forall t | t in table.calls && Intact(ArgumentsOf(Only(t, deltas)))
      ensures Understood(table, deltas, t, parse) <==>
              var provided := Flatten(ArgumentsOf(Only(t, deltas))); provided == "" || parse(provided).Some?
    {
      SentAsProvidedIff(t, IndexOf(table, t), Only(t, deltas));
    }
  }

  /** And what the client's message says of itself: the id made of the request's, the requested model, the
      role of an assistant; every signature is the placeholder. */
  lemma MessageIntroduced(reasoning: bool, policy: ThinkingPolicy, id: string, model: string,
                          chunks: seq<Chunk>, outputText: Option<string>)
    ensures var sent := Translation(NewTranslator(reasoning, policy), id, model, chunks, outputText);
            && A.Fold(sent).Ok?
            && A.Fold(sent).value.id == Some("msg_" + id)
            && A.Fold(sent).value.model == Some(model)
            && A.Fold(sent).value.role == Some("assistant")
            && forall e <- sent :: IsSignature(e) ==> e.delta.value.signature == "EXTENDED_THINKING_PLACEHOLDER_SIG"
  {
    var sent := Translation(NewTranslator(reasoning, policy), id, model, chunks, outputText);
    TranslationIsFaithful(reasoning, policy, id, model, chunks, outputText);
    TranslationIsIntroduced(reasoning, policy, id, model, chunks, outputText);
    AcceptedIsComplete(sent);
    A.HeadTold(sent);
    SignedByPlaceholder(sent);
  }
}
