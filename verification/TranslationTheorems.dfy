/** Whole translations: every stream of chunks gives a well-formed event stream that carries
    exactly the upstream text and, block by block, each tool call seen on its own. */
module TranslationTheorems {
  import opened Common
  import opened AnthropicEvents
  import opened ToolCalls
  import opened AnthropicStream
  import opened AnthropicStreamTheorems
  import R = ReasoningText

  // ----- what the upstream chunks say, without any translator -----

  /** The parser state, text and thinking that a client is told after the given chunks. */
  datatype Told = Told(parser: Option<R.ParseState>, text: string, thinking: string)

  function TellContent(told: Told, content: string, policy: ThinkingPolicy): Told {
    if content == "" then told
    else
      var (parser, chunks) := PushStep(told.parser, content);
      Told(parser, told.text + R.TextOf(View(chunks, policy)), told.thinking + R.ThinkingOf(View(chunks, policy)))
  }

  function TellChunk(told: Told, chunk: Chunk, policy: ThinkingPolicy): Told {
    var reasoning := if policy == PlaceholderThinking then ReasoningOf(chunk) else "";
    TellContent(told.(thinking := told.thinking + reasoning), chunk.content.GetOr(""), policy)
  }

  function TellAll(parser: Option<R.ParseState>, chunks: seq<Chunk>, policy: ThinkingPolicy): Told {
    if chunks == [] then Told(parser, "", "")
    else TellChunk(TellAll(parser, chunks[..|chunks| - 1], policy), chunks[|chunks| - 1], policy)
  }

  /** A tool-call delta with the upstream index it is for. */
  type Addressed = (nat, ToolDelta)

  function AddressAll(calls: seq<ToolDelta>): seq<Addressed> {
    if calls == [] then []
    else
      var last := |calls| - 1;
      AddressAll(calls[..last]) + [(calls[last].index.GetOr(last), calls[last])]
  }

  function AllDeltas(chunks: seq<Chunk>): seq<Addressed> {
    if chunks == [] then []
    else AllDeltas(chunks[..|chunks| - 1]) + AddressAll(chunks[|chunks| - 1].toolCalls)
  }

  /** The deltas of one tool call, in order. */
  function Only(t: nat, deltas: seq<Addressed>): seq<ToolDelta> {
    if deltas == [] then []
    else
      var rest, last := Only(t, deltas[..|deltas| - 1]), deltas[|deltas| - 1];
      if last.0 == t then rest + [last.1] else rest
  }

  lemma OnlyAppend(t: nat, deltas: seq<Addressed>, u: nat, d: ToolDelta)
    ensures Only(t, deltas + [(u, d)]) == if t == u then Only(t, deltas) + [d] else Only(t, deltas)
  {
    assert (deltas + [(u, d)])[..|deltas|] == deltas;
  }

  // ----- tool calls keep their history -----

  /** The pending call `t` and its events are what the call seen alone would give. */
  ghost predicate CallHistory(s: Translator, t: nat, ds: seq<ToolDelta>) {
    && t in s.table.calls
    && var index := IndexOf(s.table, t);
       var (p, outs) := AbsorbAll(t, index, ds);
       s.table.calls[t] == p && Project(s.sent, index) == Rendered(index, outs)
  }

  ghost predicate Histories(s: Translator, deltas: seq<Addressed>) {
    && (forall t: nat :: t in s.table.calls <==> Only(t, deltas) != [])
    && (forall t <- s.table.calls :: CallHistory(s, t, Only(t, deltas)))
  }

  lemma UnusedProject(s: Translator, k: nat)
    requires ReadAll(START, s.sent).phase == Open && k !in ReadAll(START, s.sent).used
    ensures Project(s.sent, k) == []
  {
    BlockStates(s.sent, k);
  }

  /** One more delta of a call extends its history by one step. */
  lemma CallStep(s: Translator, t: nat, d: ToolDelta, ds: seq<ToolDelta>, done: set<nat>)
    requires Good(s, done) && t !in done
    requires if t in s.table.calls then CallHistory(s, t, ds) else ds == []
    ensures CallHistory(ToolOut(s, t, d), t, ds + [d])
  {
    ToolOutGood(s, t, d, done);
    ApplyDeltaEffect(s.table, t, d);
    var (table, u) := ApplyDelta(s.table, t, d);
    var index := IndexOf(table, t);
    var (p, outs) := AbsorbAll(t, index, ds);
    if t !in s.table.calls {
      UnusedProject(s, index);
    }
    assert (ds + [d])[..|ds|] == ds;
    assert Emit(Absorb(p, d), t) == (table.calls[t], u);
    RenderedOuts(index, outs, u.start, u.delta);
  }

  lemma OtherCall(s: Translator, t: nat, d: ToolDelta, u: nat, ds: seq<ToolDelta>)
    requires Good(s, {}) && u != t && u in s.table.calls && CallHistory(s, u, ds)
    ensures CallHistory(ToolOut(s, t, d), u, ds)
  {
    ToolOutGood(s, t, d, {});
    ApplyDeltaEffect(s.table, t, d);
    assert IndexOf(ToolOut(s, t, d).table, u) == IndexOf(s.table, u);
  }

  lemma AnyCall(s: Translator, t: nat, d: ToolDelta, deltas: seq<Addressed>, u: nat)
    requires Good(s, {}) && Histories(s, deltas)
    ensures var s', after := ToolOut(s, t, d), Only(u, deltas + [(t, d)]);
            && (u in s'.table.calls <==> after != [])
            && (u in s'.table.calls ==> CallHistory(s', u, after))
  {
    OnlyAppend(u, deltas, t, d);
    ToolOutGood(s, t, d, {});
    ApplyDeltaEffect(s.table, t, d);
    if u == t {
      CallStep(s, t, d, Only(t, deltas), {});
    } else if u in s.table.calls {
      OtherCall(s, t, d, u, Only(u, deltas));
    }
  }

  lemma ToolHistories(s: Translator, t: nat, d: ToolDelta, deltas: seq<Addressed>)
    requires Good(s, {}) && Histories(s, deltas)
    ensures Histories(ToolOut(s, t, d), deltas + [(t, d)])
  {
    forall u: nat
      ensures u in ToolOut(s, t, d).table.calls <==> Only(u, deltas + [(t, d)]) != []
      ensures u in ToolOut(s, t, d).table.calls ==> CallHistory(ToolOut(s, t, d), u, Only(u, deltas + [(t, d)]))
    {
      AnyCall(s, t, d, deltas, u);
    }
  }

  /** `b` follows `s` with only tool-call deltas in between. */
  ghost predicate OnlyTools(s: Translator, b: Translator) {
    && b.parser == s.parser && b.policy == s.policy
    && TextSent(b.sent) == TextSent(s.sent) && ThinkingSent(b.sent) == ThinkingSent(s.sent)
    && s.table.next <= b.table.next
  }

  lemma NextTool(s: Translator, b: Translator, t: nat, d: ToolDelta, deltas: seq<Addressed>)
    requires OnlyTools(s, b) && Good(b, {}) && Histories(b, deltas)
    ensures OnlyTools(s, ToolOut(b, t, d)) && Good(ToolOut(b, t, d), {})
    ensures Histories(ToolOut(b, t, d), deltas + [(t, d)])
  {
    ToolOutGood(b, t, d, {});
    ToolHistories(b, t, d, deltas);
    ApplyDeltaEffect(b.table, t, d);
  }

  lemma {:induction false} ToolsHistories(s: Translator, calls: seq<ToolDelta>, deltas: seq<Addressed>)
    requires Good(s, {}) && Histories(s, deltas)
    ensures OnlyTools(s, ToolsOut(s, calls)) && Good(ToolsOut(s, calls), {})
    ensures Histories(ToolsOut(s, calls), deltas + AddressAll(calls))
    decreases |calls|
  {
    if calls == [] {
      assert deltas + AddressAll(calls) == deltas;
    } else {
      var last := |calls| - 1;
      var b, t := ToolsOut(s, calls[..last]), calls[last].index.GetOr(last);
      assert ToolsOut(s, calls) == ToolOut(b, t, calls[last]);
      Assoc(deltas, AddressAll(calls[..last]), [(t, calls[last])]);
      ToolsHistories(s, calls[..last], deltas);
      NextTool(s, b, t, calls[last], deltas + AddressAll(calls[..last]));
    }
  }

  lemma ContentHistories(s: Translator, s': Translator, text: string, thinking: string, deltas: seq<Addressed>)
    requires Content(s, s', text, thinking) && Histories(s, deltas)
    ensures Histories(s', deltas)
  {
    forall t | t in s'.table.calls ensures CallHistory(s', t, Only(t, deltas)) {
      assert CallHistory(s, t, Only(t, deltas));
    }
  }

  // ----- runs -----

  /** A run so far: good, saying exactly what the chunks tell, with every call's history in place. */
  ghost predicate Run(s: Translator, told: Told, deltas: seq<Addressed>) {
    && Tracks(s, ReadAll(START, s.sent), {})
    && Histories(s, deltas)
    && s.parser == told.parser && TextSent(s.sent) == told.text && ThinkingSent(s.sent) == told.thinking
    && (s.table.next == 0 ==> told.text == "" && told.thinking == "")
  }

  lemma PreludedRun(s: Translator, id: string, model: string, told: Told, deltas: seq<Addressed>)
    requires Run(s, told, deltas)
    ensures Run(Preluded(s, id, model), told, deltas) && Good(Preluded(s, id, model), {})
    ensures Preluded(s, id, model).policy == s.policy && Preluded(s, id, model).table == s.table
  {
    if !s.preludeSent {
      var hello := MessageStart(Some("msg_" + id), Some(model), Some("assistant"));
      OneMore(s.sent, hello);
      OneMore(s.sent + [hello], Ping);
    }
  }

  lemma ReasoningRun(s: Translator, chunk: Chunk, told: Told, deltas: seq<Addressed>)
    requires Run(s, told, deltas) && Good(s, {})
    ensures var reasoning := if s.policy == PlaceholderThinking then ReasoningOf(chunk) else "";
            var s' := ReasoningIn(s, chunk);
            Run(s', told.(thinking := told.thinking + reasoning), deltas) && Good(s', {}) && s'.policy == s.policy
  {
    if ReasoningOf(chunk) != "" && s.policy == PlaceholderThinking {
      ThinkingOutGood(s, ReasoningOf(chunk));
      ContentHistories(s, ThinkingOut(s, ReasoningOf(chunk)), "", ReasoningOf(chunk), deltas);
    }
  }

  lemma ContentRun(s: Translator, content: string, told: Told, deltas: seq<Addressed>)
    requires Run(s, told, deltas) && Good(s, {}) && content != ""
    ensures Run(ContentOut(s, content), TellContent(told, content, s.policy), deltas)
    ensures Good(ContentOut(s, content), {}) && ContentOut(s, content).policy == s.policy
  {
    ContentOutGood(s, content);
    var view := View(PushStep(s.parser, content).1, s.policy);
    ContentHistories(s, ContentOut(s, content), R.TextOf(view), R.ThinkingOf(view), deltas);
  }

  lemma NotedRun(s: Translator, chunk: Chunk, told: Told, deltas: seq<Addressed>)
    requires Run(s, told, deltas) && Good(s, {})
    ensures var a := ReasonNoted(s, chunk);
            Run(a, told, deltas) && Good(a, {}) && a.policy == s.policy
  {
    var a := ReasonNoted(s, chunk);
    forall t | t in a.table.calls ensures CallHistory(a, t, Only(t, deltas)) {
      assert CallHistory(s, t, Only(t, deltas));
    }
  }

  lemma ChunkRun(s: Translator, chunk: Chunk, told: Told, deltas: seq<Addressed>)
    requires Run(s, told, deltas) && Good(s, {})
    ensures Run(ChunkIn(s, chunk), TellChunk(told, chunk, s.policy), deltas + AddressAll(chunk.toolCalls))
    ensures Good(ChunkIn(s, chunk), {}) && ChunkIn(s, chunk).policy == s.policy
  {
    var a := ReasonNoted(s, chunk);
    NotedRun(s, chunk, told, deltas);
    ReasoningRun(a, chunk, told, deltas);
    var b := ReasoningIn(a, chunk);
    var reasoning := if s.policy == PlaceholderThinking then ReasoningOf(chunk) else "";
    var t := told.(thinking := told.thinking + reasoning);
    if chunk.content.GetOr("") != "" {
      ContentRun(b, chunk.content.GetOr(""), t, deltas);
    }
    ToolsRun(ContentIn(b, chunk), chunk.toolCalls, TellContent(t, chunk.content.GetOr(""), s.policy), deltas);
  }

  lemma ToolsRun(s: Translator, calls: seq<ToolDelta>, told: Told, deltas: seq<Addressed>)
    requires Run(s, told, deltas) && Good(s, {})
    ensures Run(ToolsOut(s, calls), told, deltas + AddressAll(calls)) && Good(ToolsOut(s, calls), {})
    ensures ToolsOut(s, calls).policy == s.policy
  {
    ToolsHistories(s, calls, deltas);
  }

  lemma {:induction false} ChunksRun(reasoning: bool, policy: ThinkingPolicy, id: string, model: string,
                                     chunks: seq<Chunk>)
    ensures var s := NewTranslator(reasoning, policy);
            var s' := RunChunks(s, id, model, chunks);
            && Run(s', TellAll(s.parser, chunks, policy), AllDeltas(chunks))
            && s'.policy == policy && (chunks != [] ==> Good(s', {}))
  {
    var s := NewTranslator(reasoning, policy);
    if chunks != [] {
      var front, chunk := chunks[..|chunks| - 1], chunks[|chunks| - 1];
      ChunksRun(reasoning, policy, id, model, front);
      var b := RunChunks(s, id, model, front);
      var told, deltas := TellAll(s.parser, front, policy), AllDeltas(front);
      PreludedRun(b, id, model, told, deltas);
      ChunkRun(Preluded(b, id, model), chunk, told, deltas);
    }
  }

  /** A stream cut short by an upstream error or a client that left has broken no rule so far. */
  lemma CutShortStreamIsSound(reasoning: bool, policy: ThinkingPolicy, id: string, model: string, chunks: seq<Chunk>)
    ensures ReadAll(START, RunChunks(NewTranslator(reasoning, policy), id, model, chunks).sent).phase
            == if chunks == [] then Phase.Fresh else Phase.Open
  {
    ChunksRun(reasoning, policy, id, model, chunks);
  }

  // ----- completion -----

  /** What was told once the fallback text, if any, and the parser's rest are in. */
  function TellEnd(told: Told, next: nat, outputText: Option<string>, policy: ThinkingPolicy): Told {
    var filled := if next == 0 then TellContent(told, outputText.GetOr(""), policy) else told;
    match filled.parser
    case None => filled
    case Some(state) =>
      var view := View(R.Finished(state), policy);
      Told(Some(R.INITIAL), filled.text + R.TextOf(view), filled.thinking + R.ThinkingOf(view))
  }

  lemma DrainedRun(s: Translator, id: string, model: string, outputText: Option<string>, told: Told,
                   deltas: seq<Addressed>)
    requires Run(s, told, deltas)
    ensures var d := Drained(s, id, model, outputText);
            var end := TellEnd(told, s.table.next, outputText, s.policy);
            && Good(d, {}) && d.active.None? && Histories(d, deltas)
            && TextSent(d.sent) == end.text && ThinkingSent(d.sent) == end.thinking
  {
    PreludedRun(s, id, model, told, deltas);
    var p := Preluded(s, id, model);
    var fill := p.table.next == 0 && outputText.GetOr("") != "";
    if fill {
      ContentRun(p, outputText.GetOr(""), told, deltas);
    }
    var f := if fill then ContentOut(p, outputText.GetOr("")) else p;
    var filled := if fill then TellContent(told, outputText.GetOr(""), s.policy) else told;
    FlushedRun(f, filled, deltas);
    var g := ParserFlushed(f);
    ClosedGood(g, {});
    ContentHistories(g, Closed(g), "", "", deltas);
  }

  lemma FlushedRun(f: Translator, told: Told, deltas: seq<Addressed>)
    requires Run(f, told, deltas) && Good(f, {})
    ensures var g := ParserFlushed(f);
            && Good(g, {}) && Histories(g, deltas)
            && match told.parser
               case None => TextSent(g.sent) == told.text && ThinkingSent(g.sent) == told.thinking
               case Some(state) =>
                 && TextSent(g.sent) == told.text + R.TextOf(View(R.Finished(state), f.policy))
                 && ThinkingSent(g.sent) == told.thinking + R.ThinkingOf(View(R.Finished(state), f.policy))
  {
    if f.parser.Some? {
      var p := f.(parser := Some(R.INITIAL));
      var chunks := R.Finished(f.parser.value);
      ReasoningOutGood(p, chunks);
      assert Histories(p, deltas) by {
        forall t | t in p.table.calls ensures CallHistory(p, t, Only(t, deltas)) {
          assert CallHistory(f, t, Only(t, deltas));
        }
      }
      ContentHistories(p, ReasoningOut(p, chunks), R.TextOf(View(chunks, f.policy)),
                       R.ThinkingOf(View(chunks, f.policy)), deltas);
    }
  }

  /** A flushed call: its events are those of its whole life. */
  ghost predicate Finished(s: Translator, t: nat, ds: seq<ToolDelta>) {
    && t in s.table.calls
    && var index := IndexOf(s.table, t);
       Project(s.sent, index) == Rendered(index, Lifetime(t, index, ds).1)
  }

  lemma CallFinished(s: Translator, t: nat, ds: seq<ToolDelta>, done: set<nat>)
    requires Good(s, done) && t in s.table.calls && t !in done && s.active.None?
    requires CallHistory(s, t, ds)
    ensures Finished(ToolFlushed(s, t), t, ds)
  {
    var m, index := ToolOut(s, t, EMPTY_DELTA), IndexOf(s.table, t);
    ToolFlushedGood(s, t, done);
    CallStep(s, t, EMPTY_DELTA, ds, done);
    LastDeltaGood(s, t, done);
    StopRendered(m, t, index, ds);
  }

  /** The stop of a call whose history is complete. */
  lemma StopRendered(m: Translator, t: nat, index: nat, ds: seq<ToolDelta>)
    requires CallHistory(m, t, ds + [EMPTY_DELTA]) && IndexOf(m.table, t) == index
    ensures WithStop(Project(m.sent, index), index, FlushStop(m.table, t).1)
            == Rendered(index, Lifetime(t, index, ds).1)
  {
    var (p, outs) := AbsorbAll(t, index, ds + [EMPTY_DELTA]);
    assert FlushStop(m.table, t).1 == Flush(p, t).1;
    RenderedStop(index, outs, Flush(p, t).1);
  }

  lemma RenderedStop(index: nat, outs: seq<Out>, u: StopUpdate)
    ensures Rendered(index, outs + Outs(u.start, u.delta) + (if u.stopIndex.Some? then [Stopped] else [])) ==
            if u.stopIndex.None? then Rendered(index, outs + Outs(u.start, u.delta))
            else WithStop(Rendered(index, outs), index, u)
    ensures u == NO_STOP ==> outs + Outs(u.start, u.delta) == outs
  {
    var before := outs + Outs(u.start, u.delta);
    RenderedOuts(index, outs, u.start, u.delta);
    if u.stopIndex.Some? {
      assert (before + [Stopped])[..|before|] == before;
    } else {
      assert before + [] == before;
    }
  }

  ghost predicate HalfFlushed(s: Translator, done: set<nat>, deltas: seq<Addressed>) {
    && Good(s, done) && s.active.None?
    && forall t <- s.table.calls :: CallKept(s, t, done, Only(t, deltas))
  }

  ghost predicate CallKept(s: Translator, t: nat, done: set<nat>, ds: seq<ToolDelta>) {
    if t in done then Finished(s, t, ds) else CallHistory(s, t, ds)
  }

  lemma FlushOne(s: Translator, t: nat, done: set<nat>, deltas: seq<Addressed>)
    requires HalfFlushed(s, done, deltas) && t in s.table.calls && t !in done
    ensures var s' := ToolFlushed(s, t);
            && HalfFlushed(s', done + {t}, deltas) && s'.table.calls.Keys == s.table.calls.Keys
            && TextSent(s'.sent) == TextSent(s.sent) && ThinkingSent(s'.sent) == ThinkingSent(s.sent)
  {
    ToolFlushedGood(s, t, done);
    assert CallKept(s, t, done, Only(t, deltas));
    CallFinished(s, t, Only(t, deltas), done);
    HalfFlushedOn(s, ToolFlushed(s, t), t, done, deltas);
  }

  lemma HalfFlushedOn(s: Translator, s': Translator, t: nat, done: set<nat>, deltas: seq<Addressed>)
    requires HalfFlushed(s, done, deltas) && t in s.table.calls && t !in done
    requires Good(s', done + {t}) && Flushed(s, s', t) && Finished(s', t, Only(t, deltas))
    ensures HalfFlushed(s', done + {t}, deltas)
  {
    forall u | u in s'.table.calls ensures CallKept(s', u, done + {t}, Only(u, deltas)) {
      KeptAfter(s, s', t, u, done, Only(u, deltas));
    }
  }

  lemma KeptAfter(s: Translator, s': Translator, t: nat, u: nat, done: set<nat>, ds: seq<ToolDelta>)
    requires t in s.table.calls && Flushed(s, s', t) && u in s.table.calls && CallKept(s, u, done, ds)
    requires u == t ==> Finished(s', t, ds)
    ensures CallKept(s', u, done + {t}, ds)
  {
    if u != t {
      assert IndexOf(s'.table, u) == IndexOf(s.table, u);
    }
  }

  function Elements(order: seq<nat>): set<nat> {
    if order == [] then {} else Elements(order[..|order| - 1]) + {order[|order| - 1]}
  }

  predicate Distinct(order: seq<nat>) {
    order == [] || (order[|order| - 1] !in Elements(order[..|order| - 1]) && Distinct(order[..|order| - 1]))
  }

  lemma {:induction false} ElementsIn(order: seq<nat>)
    ensures forall k :: k in Elements(order) <==> k in order
  {
    if order != [] {
      ElementsIn(order[..|order| - 1]);
    }
  }

  lemma {:induction false} IncreasingDistinct(order: seq<nat>)
    requires forall i, j :: 0 <= i < j < |order| ==> order[i] < order[j]
    ensures Distinct(order)
  {
    if order != [] {
      IncreasingDistinct(order[..|order| - 1]);
      ElementsIn(order[..|order| - 1]);
    }
  }

  lemma {:induction false} FlushAll(s: Translator, order: seq<nat>, deltas: seq<Addressed>)
    requires HalfFlushed(s, {}, deltas)
    requires Elements(order) <= s.table.calls.Keys && Distinct(order)
    ensures var s' := ToolsFlushed(s, order);
            && HalfFlushed(s', Elements(order), deltas) && s'.table.calls.Keys == s.table.calls.Keys
            && TextSent(s'.sent) == TextSent(s.sent) && ThinkingSent(s'.sent) == ThinkingSent(s.sent)
    decreases |order|
  {
    if order != [] {
      var front, last := order[..|order| - 1], order[|order| - 1];
      FlushAll(s, front, deltas);
      FlushOne(ToolsFlushed(s, front), last, Elements(front), deltas);
    }
  }

  lemma MessageEnds(s: Translator, reason: string)
    requires var g := ReadAll(START, s.sent); g.phase == Open && g.current.None? && g.tools == {}
    ensures var sent := s.sent + [MessageDelta(Some(reason))] + [AnthropicEvents.MessageStop];
            && Accepted(sent) && TextSent(sent) == TextSent(s.sent) && ThinkingSent(sent) == ThinkingSent(s.sent)
            && forall k: nat :: Project(sent, k) == Project(s.sent, k)
  {
    OneMore(s.sent, MessageDelta(Some(reason)));
    OneMore(s.sent + [MessageDelta(Some(reason))], AnthropicEvents.MessageStop);
  }

  /** Everything a finished translation guarantees; `table` tells the content index of each call. */
  ghost predicate Faithful(sent: seq<Event>, text: string, thinking: string, deltas: seq<Addressed>, table: Table) {
    && Accepted(sent)
    && TextSent(sent) == text && ThinkingSent(sent) == thinking
    && Indexed(table)
    && (forall t: nat :: t in table.calls <==> Only(t, deltas) != [])
    && forall t <- table.calls :: CallSent(sent, t, IndexOf(table, t), Only(t, deltas))
  }

  /** At `index` lies the whole life of call `t`, seen alone. */
  ghost predicate CallSent(sent: seq<Event>, t: nat, index: nat, ds: seq<ToolDelta>) {
    Project(sent, index) == Rendered(index, Lifetime(t, index, ds).1)
  }

  /** The translator when all but the two closing events are out. */
  function AllFlushed(start: Translator, id: string, model: string, chunks: seq<Chunk>,
                      outputText: Option<string>): Translator {
    var d := Drained(RunChunks(start, id, model, chunks), id, model, outputText);
    ToolsFlushed(d, Ascending(d.table.calls.Keys))
  }

  /** For every sequence of chunks, every parser and thinking policy and every completion text:
      the events are well formed from `message_start` to `message_stop`; text and thinking are
      what the chunks tell; and every tool call that a chunk mentions owns one content index,
      at which the events are those of this call alone, however the calls were interleaved. */
  lemma TranslationIsFaithful(reasoning: bool, policy: ThinkingPolicy, id: string, model: string,
                              chunks: seq<Chunk>, outputText: Option<string>)
    ensures var start := NewTranslator(reasoning, policy);
            var next := RunChunks(start, id, model, chunks).table.next;
            var told := TellEnd(TellAll(start.parser, chunks, policy), next, outputText, policy);
            Faithful(Translation(start, id, model, chunks, outputText), told.text, told.thinking,
                     AllDeltas(chunks), AllFlushed(start, id, model, chunks, outputText).table)
  {
    var start := NewTranslator(reasoning, policy);
    var end, deltas := RunChunks(start, id, model, chunks), AllDeltas(chunks);
    ChunksRun(reasoning, policy, id, model, chunks);
    DrainedRun(end, id, model, outputText, TellAll(start.parser, chunks, policy), deltas);
    var d := Drained(end, id, model, outputText);
    FlushEverything(d, deltas);
    var t := ToolsFlushed(d, Ascending(d.table.calls.Keys));
    FlushedIsFaithful(t, t.stopReason.GetOr(if t.table.calls == map[] then "end_turn" else "tool_use"), deltas);
  }

  lemma FlushEverything(d: Translator, deltas: seq<Addressed>)
    requires Good(d, {}) && d.active.None? && Histories(d, deltas)
    ensures var t := ToolsFlushed(d, Ascending(d.table.calls.Keys));
            && HalfFlushed(t, t.table.calls.Keys, deltas)
            && t.table.calls.Keys == d.table.calls.Keys
            && TextSent(t.sent) == TextSent(d.sent) && ThinkingSent(t.sent) == ThinkingSent(d.sent)
  {
    var order := Ascending(d.table.calls.Keys);
    AscendingSound(d.table.calls.Keys);
    ElementsIn(order);
    IncreasingDistinct(order);
    assert Elements(order) == d.table.calls.Keys;
    NoneFlushed(d, deltas);
    FlushAll(d, order, deltas);
  }

  lemma NoneFlushed(d: Translator, deltas: seq<Addressed>)
    requires Good(d, {}) && d.active.None? && Histories(d, deltas)
    ensures HalfFlushed(d, {}, deltas)
  {}

  lemma FlushedIsFaithful(t: Translator, reason: string, deltas: seq<Addressed>)
    requires HalfFlushed(t, t.table.calls.Keys, deltas)
    requires forall k: nat :: k in t.table.calls <==> Only(k, deltas) != []
    ensures Faithful(t.sent + [MessageDelta(Some(reason))] + [AnthropicEvents.MessageStop],
                     TextSent(t.sent), ThinkingSent(t.sent), deltas, t.table)
  {
    NoneOpen(t, ReadAll(START, t.sent));
    MessageEnds(t, reason);
    var sent := t.sent + [MessageDelta(Some(reason))] + [AnthropicEvents.MessageStop];
    forall k | k in t.table.calls ensures CallSent(sent, k, IndexOf(t.table, k), Only(k, deltas)) {
      assert CallKept(t, k, t.table.calls.Keys, Only(k, deltas));
    }
  }

  lemma NoneOpen(t: Translator, g: Grammar)
    requires Tracks(t, g, t.table.calls.Keys)
    ensures g.tools == {}
  {
    assert forall k :: k in g.tools ==> exists w :: HasOpen(t.table, t.table.calls.Keys, w, k);
    assert forall k :: k !in g.tools;
  }
}
