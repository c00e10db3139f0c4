/** What holds of every run of the OpenAI to Anthropic translator. */
module AnthropicStreamTheorems {
  import opened Common
  import opened AnthropicEvents
  import opened ToolCalls
  import opened AnthropicStream
  import R = ReasoningText

  function IndexOf(table: Table, t: nat): nat
    requires t in table.calls
  {
    table.calls[t].anthropicIndex.GetOr(t)
  }

  /** Every pending call has a content index of its own, below the shared counter. */
  ghost predicate Indexed(table: Table) {
    && (forall t <- table.calls :: table.calls[t].anthropicIndex.Some? && IndexOf(table, t) < table.next)
    && (forall t, u :: t in table.calls && u in table.calls && t != u ==> IndexOf(table, t) != IndexOf(table, u))
  }

  /** Call `t`, not yet flushed, has its block open at index `k`. */
  ghost predicate HasOpen(table: Table, done: set<nat>, t: nat, k: nat) {
    t in table.calls && t !in done && table.calls[t].started && IndexOf(table, t) == k
  }

  /** The translator's fields say where the grammar stands; the calls in `done` are flushed. */
  ghost predicate Tracks(s: Translator, g: Grammar, done: set<nat>) {
    && (if s.preludeSent then g.phase == Open else g == START && s.table == Table(map[], 0) && s.active.None?)
    && !g.signed
    && (s.active.Some? <==> s.activeKind.Some?)
    && s.activeKind != Some(ToolKind)
    && (s.activeKind == Some(ThinkingKind) ==> s.policy == PlaceholderThinking)
    && g.current == (if s.active.Some? && s.activeKind.Some? then Some((s.active.value, s.activeKind.value)) else None)
    && Indexed(s.table)
    && g.bound <= s.table.next
    && (forall k <- g.used :: k < s.table.next)
    && (s.active.Some? ==> s.active.value < s.table.next)
    && (forall t <- s.table.calls :: Some(IndexOf(s.table, t)) != s.active)
    && CallsTrack(s.table, g, done)
    && ToolsTrack(s.table, g, done)
  }

  /** The block of every call not yet flushed is open or not yet started, as the table says. */
  ghost predicate CallsTrack(table: Table, g: Grammar, done: set<nat>) {
    forall t <- table.calls | t !in done ::
      && !table.calls[t].stopped
      && if table.calls[t].started then IndexOf(table, t) in g.tools else IndexOf(table, t) !in g.used
  }

  /** Every open tool block is that of a call. */
  ghost predicate ToolsTrack(table: Table, g: Grammar, done: set<nat>) {
    forall k <- g.tools :: k in g.used && exists t :: HasOpen(table, done, t, k)
  }

  ghost predicate Good(s: Translator, done: set<nat>) {
    s.preludeSent && Tracks(s, ReadAll(START, s.sent), done)
  }

  /** From `s` to `s'` exactly this text and thinking went out, and no tool call was touched. */
  ghost predicate Content(s: Translator, s': Translator, text: string, thinking: string) {
    && s'.table.calls == s.table.calls && s'.policy == s.policy
    && (s'.table.next == 0 ==> s.table.next == 0 && text == "" && thinking == "")
    && TextSent(s'.sent) == TextSent(s.sent) + text
    && ThinkingSent(s'.sent) == ThinkingSent(s.sent) + thinking
    && forall t <- s.table.calls :: Project(s'.sent, IndexOf(s.table, t)) == Project(s.sent, IndexOf(s.table, t))
  }

  lemma ContentTrans(a: Translator, b: Translator, c: Translator, t1: string, h1: string, t2: string, h2: string)
    requires Content(a, b, t1, h1) && Content(b, c, t2, h2)
    ensures Content(a, c, t1 + t2, h1 + h2)
  {
    Assoc(TextSent(a.sent), t1, t2);
    Assoc(ThinkingSent(a.sent), h1, h2);
  }

  // ----- text and thinking -----

  /** The closing events as the grammar and the folds read them. */
  lemma ClosedReads(s: Translator)
    requires var g := ReadAll(START, s.sent);
             && g.phase == Open && !g.signed && s.active.Some? && s.activeKind.Some?
             && g.current == Some((s.active.value, s.activeKind.value))
             && (s.activeKind == Some(ThinkingKind) ==> s.policy == PlaceholderThinking)
    ensures ReadAll(START, Closed(s).sent) == ReadAll(START, s.sent).(current := None)
    ensures TextSent(Closed(s).sent) == TextSent(s.sent) && ThinkingSent(Closed(s).sent) == ThinkingSent(s.sent)
    ensures forall k: nat :: Some(k) != s.active ==> Project(Closed(s).sent, k) == Project(s.sent, k)
  {
    var index := s.active.value;
    if s.activeKind == Some(ThinkingKind) {
      SignatureReads(s.sent, index);
    } else {
      OneMore(s.sent, Stop(index));
    }
  }

  lemma SignatureReads(events: seq<Event>, index: nat)
    requires var g := ReadAll(START, events);
             g.phase == Open && !g.signed && g.current == Some((index, ThinkingKind))
    ensures var more := events + [Send(index, SignatureDelta(PLACEHOLDER_SIGNATURE))] + [Stop(index)];
            && ReadAll(START, more) == ReadAll(START, events).(current := None)
            && TextSent(more) == TextSent(events) && ThinkingSent(more) == ThinkingSent(events)
            && forall k: nat :: k != index ==> Project(more, k) == Project(events, k)
  {
    OneMore(events, Send(index, SignatureDelta(PLACEHOLDER_SIGNATURE)));
    OneMore(events + [Send(index, SignatureDelta(PLACEHOLDER_SIGNATURE))], Stop(index));
  }

  lemma ClosedGood(s: Translator, done: set<nat>)
    requires Good(s, done)
    ensures Good(Closed(s), done) && Closed(s).active.None? && Content(s, Closed(s), "", "")
    ensures Closed(s) == s.(sent := Closed(s).sent, active := None, activeKind := None)
    ensures ReadAll(START, Closed(s).sent) == ReadAll(START, s.sent).(current := None)
    ensures forall k: nat :: Some(k) != s.active ==> Project(Closed(s).sent, k) == Project(s.sent, k)
  {
    if s.active.Some? {
      ClosedReads(s);
    }
  }

  /** The start of a text or thinking block as the grammar and the folds read it. */
  lemma BegunReads(events: seq<Event>, i: nat, kind: Kind)
    requires var g := ReadAll(START, events);
             g.phase == Open && g.current.None? && i !in g.used && g.bound <= i
    requires kind != ToolKind
    ensures var g := ReadAll(START, events);
            var more := events + [Start(i, if kind == ThinkingKind then StartThinking("", "") else StartText(""))];
            && ReadAll(START, more) == g.(used := g.used + {i}, current := Some((i, kind)), bound := i + 1)
            && TextSent(more) == TextSent(events) && ThinkingSent(more) == ThinkingSent(events)
            && forall k: nat :: k != i ==> Project(more, k) == Project(events, k)
  {
    OneMore(events, Start(i, if kind == ThinkingKind then StartThinking("", "") else StartText("")));
  }

  lemma BegunGood(s: Translator, kind: Kind)
    requires Good(s, {}) && s.active.None? && kind != ToolKind
    requires kind == ThinkingKind ==> s.policy == PlaceholderThinking
    ensures Good(Begun(s, kind), {}) && Content(s, Begun(s, kind), "", "")
    ensures Begun(s, kind).active.Some? && Begun(s, kind).activeKind == Some(kind)
  {
    var g := ReadAll(START, s.sent);
    assert s.table.next !in g.used;
    BegunReads(s.sent, s.table.next, kind);
    BegunTracks(s, g, kind, Begun(s, kind));
    BegunSilent(s, Begun(s, kind));
  }

  lemma BegunTracks(s: Translator, g: Grammar, kind: Kind, b: Translator)
    requires s.preludeSent && Tracks(s, g, {}) && s.active.None? && kind != ToolKind
    requires kind == ThinkingKind ==> s.policy == PlaceholderThinking
    requires b.preludeSent && b.policy == s.policy && b.table == s.table.(next := s.table.next + 1)
    requires b.active == Some(s.table.next) && b.activeKind == Some(kind)
    ensures var i := s.table.next;
            Tracks(b, g.(used := g.used + {i}, current := Some((i, kind)), bound := i + 1), {})
  {
    BegunTable(s.table, g, kind);
    forall t | t in b.table.calls ensures IndexOf(b.table, t) < s.table.next {
      assert IndexOf(b.table, t) == IndexOf(s.table, t);
    }
  }

  lemma BegunSilent(s: Translator, b: Translator)
    requires Indexed(s.table) && b.table == s.table.(next := s.table.next + 1) && b.policy == s.policy
    requires TextSent(b.sent) == TextSent(s.sent) && ThinkingSent(b.sent) == ThinkingSent(s.sent)
    requires forall k: nat :: k != s.table.next ==> Project(b.sent, k) == Project(s.sent, k)
    ensures Content(s, b, "", "")
  {
    assert TextSent(s.sent) + "" == TextSent(s.sent) && ThinkingSent(s.sent) + "" == ThinkingSent(s.sent);
  }

  lemma BegunTable(table: Table, g: Grammar, kind: Kind)
    requires Indexed(table) && CallsTrack(table, g, {}) && ToolsTrack(table, g, {})
    ensures var i := table.next;
            var after := table.(next := i + 1);
            var g' := g.(used := g.used + {i}, current := Some((i, kind)), bound := i + 1);
            Indexed(after) && CallsTrack(after, g', {}) && ToolsTrack(after, g', {})
  {
    var after := table.(next := table.next + 1);
    assert forall t <- table.calls :: IndexOf(after, t) == IndexOf(table, t);
    forall k | k in g.tools ensures exists t :: HasOpen(after, {}, t, k) {
      var t :| HasOpen(table, {}, t, k);
      assert HasOpen(after, {}, t, k);
    }
  }

  lemma OpenedGood(s: Translator, kind: Kind)
    requires Good(s, {}) && kind != ToolKind
    requires kind == ThinkingKind ==> s.policy == PlaceholderThinking
    ensures Good(Opened(s, kind), {}) && Content(s, Opened(s, kind), "", "")
    ensures Opened(s, kind).active.Some? && Opened(s, kind).activeKind == Some(kind)
    ensures Opened(s, kind).parser == s.parser && Opened(s, kind).table.next > 0
  {
    ClosedGood(s, {});
    if !(s.active.Some? && s.activeKind == Some(kind)) {
      BegunGood(Closed(s), kind);
    }
  }

  lemma SendGood(o: Translator, delta: Delta)
    requires Good(o, {}) && o.active.Some?
    requires match delta
             case TextDelta(_) => o.activeKind == Some(TextKind)
             case ThinkingDelta(_) => o.activeKind == Some(ThinkingKind)
             case _ => false
    ensures var e := Send(o.active.value, delta);
            Good(Emitting(o, e), {}) && Content(o, Emitting(o, e), TextPart(e), ThinkingPart(e))
  {
    OneMore(o.sent, Send(o.active.value, delta));
    var g := ReadAll(START, o.sent);
    assert g.bound <= o.table.next && o.active.value < o.table.next;
  }

  lemma TextOutGood(s: Translator, text: string)
    requires Good(s, {})
    ensures Good(TextOut(s, text), {}) && Content(s, TextOut(s, text), text, "") && TextOut(s, text).parser == s.parser
  {
    var o := Opened(s, TextKind);
    OpenedGood(s, TextKind);
    SendGood(o, TextDelta(text));
    ContentTrans(s, o, TextOut(s, text), "", "", text, "");
    assert "" + text == text;
  }

  lemma ThinkingOutGood(s: Translator, thinking: string)
    requires Good(s, {}) && s.policy == PlaceholderThinking
    ensures Good(ThinkingOut(s, thinking), {}) && Content(s, ThinkingOut(s, thinking), "", thinking)
    ensures ThinkingOut(s, thinking).parser == s.parser
  {
    var o := Opened(s, ThinkingKind);
    OpenedGood(s, ThinkingKind);
    SendGood(o, ThinkingDelta(thinking));
    ContentTrans(s, o, ThinkingOut(s, thinking), "", "", "", thinking);
    assert "" + thinking == thinking;
  }

  /** How parsed chunks go out: without placeholder thinking everything is text. */
  function View(chunks: seq<R.Chunk>, policy: ThinkingPolicy): seq<R.Chunk> {
    if policy == PlaceholderThinking then chunks else AsText(chunks)
  }

  function AsText(chunks: seq<R.Chunk>): seq<R.Chunk> {
    seq(|chunks|, i requires 0 <= i < |chunks| => R.Text(R.ThinkingPart(chunks[i]) + R.TextPart(chunks[i])))
  }

  lemma ViewAppend(a: seq<R.Chunk>, b: seq<R.Chunk>, policy: ThinkingPolicy)
    ensures View(a + b, policy) == View(a, policy) + View(b, policy)
    ensures R.TextOf(View(a + b, policy)) == R.TextOf(View(a, policy)) + R.TextOf(View(b, policy))
    ensures R.ThinkingOf(View(a + b, policy)) == R.ThinkingOf(View(a, policy)) + R.ThinkingOf(View(b, policy))
  {
    AsTextAppend(a, b);
    R.OutputAppend(View(a, policy), View(b, policy));
  }

  lemma AsTextAppend(a: seq<R.Chunk>, b: seq<R.Chunk>)
    ensures AsText(a + b) == AsText(a) + AsText(b)
  {}

  /** `s'` is good and exactly the viewed chunks have gone out in between. */
  ghost predicate Spoke(s: Translator, s': Translator, chunks: seq<R.Chunk>) {
    Good(s', {}) && Content(s, s', R.TextOf(View(chunks, s.policy)), R.ThinkingOf(View(chunks, s.policy)))
  }

  lemma ChunkOutGood(s: Translator, chunk: R.Chunk)
    requires Good(s, {})
    ensures Spoke(s, ReasoningChunkOut(s, chunk), [chunk]) && ReasoningChunkOut(s, chunk).parser == s.parser
  {
    assert AsText([chunk]) == [R.Text(R.ThinkingPart(chunk) + R.TextPart(chunk))];
    var c := View([chunk], s.policy)[0];
    assert R.TextOf([c]) == R.TextPart(c) + R.TextOf([]) == R.TextPart(c);
    assert R.ThinkingOf([c]) == R.ThinkingPart(c) + R.ThinkingOf([]) == R.ThinkingPart(c);
    if chunk.Thinking? && s.policy == PlaceholderThinking {
      ThinkingOutGood(s, chunk.thinking);
    } else {
      TextOutGood(s, c.text);
      assert chunk.Text? ==> "" + chunk.text == chunk.text;
      assert chunk.Thinking? ==> chunk.thinking + "" == chunk.thinking;
    }
  }

  lemma {:induction false} ReasoningOutGood(s: Translator, chunks: seq<R.Chunk>)
    requires Good(s, {})
    ensures Spoke(s, ReasoningOut(s, chunks), chunks) && ReasoningOut(s, chunks).parser == s.parser
    decreases |chunks|
  {
    if chunks == [] {
      NoChunksOut(s);
    } else {
      var front, last := chunks[..|chunks| - 1], chunks[|chunks| - 1];
      var b := ReasoningOut(s, front);
      assert ReasoningOut(s, chunks) == ReasoningChunkOut(b, last) && chunks == front + [last];
      ReasoningOutGood(s, front);
      NextChunkOut(s, b, front, last);
    }
  }

  lemma NoChunksOut(s: Translator)
    requires Good(s, {})
    ensures Spoke(s, s, [])
  {
    assert View([], s.policy) == [];
  }

  lemma NextChunkOut(s: Translator, b: Translator, front: seq<R.Chunk>, last: R.Chunk)
    requires Spoke(s, b, front)
    ensures Spoke(s, ReasoningChunkOut(b, last), front + [last]) && ReasoningChunkOut(b, last).parser == b.parser
  {
    ChunkOutGood(b, last);
    SpokeTrans(s, b, ReasoningChunkOut(b, last), front, [last]);
  }

  lemma SpokeTrans(a: Translator, b: Translator, c: Translator, x: seq<R.Chunk>, y: seq<R.Chunk>)
    requires Spoke(a, b, x) && Spoke(b, c, y)
    ensures Spoke(a, c, x + y)
  {
    ViewAppend(x, y, a.policy);
    ContentTrans(a, b, c, R.TextOf(View(x, a.policy)), R.ThinkingOf(View(x, a.policy)),
                 R.TextOf(View(y, a.policy)), R.ThinkingOf(View(y, a.policy)));
  }

  /** The parser state after one push, and what comes out of it; without a parser, the text itself. */
  function PushStep(parser: Option<R.ParseState>, text: string): (Option<R.ParseState>, seq<R.Chunk>) {
    match parser
    case None => (None, [R.Text(text)])
    case Some(state) => (Some(R.Pushed(state, text).0), R.Pushed(state, text).1)
  }

  lemma ContentOutGood(s: Translator, text: string)
    requires Good(s, {})
    ensures Spoke(s, ContentOut(s, text), PushStep(s.parser, text).1)
    ensures ContentOut(s, text).parser == PushStep(s.parser, text).0
  {
    match s.parser {
      case None =>
        ChunkOutGood(s, R.Text(text));
      case Some(state) =>
        var (next, chunks) := R.Pushed(state, text);
        var p := s.(parser := Some(next));
        ReasoningOutGood(p, chunks);
        assert Content(s, p, "", "");
        ContentTrans(s, p, ContentOut(s, text), "", "", R.TextOf(View(chunks, s.policy)),
                     R.ThinkingOf(View(chunks, s.policy)));
        assert forall x: string :: "" + x == x;
    }
  }

  // ----- tool calls -----

  /** What one delta does to the table: at most a new entry, a start that comes once and before
      any fragment, and the fresh index taken from the counter. */
  lemma ApplyDeltaEffect(table: Table, t: nat, d: ToolDelta)
    requires Indexed(table)
    ensures var (table', u) := ApplyDelta(table, t, d);
            && Indexed(table') && table'.calls.Keys == table.calls.Keys + {t}
            && (forall k <- table.calls :: k != t ==> table'.calls[k] == table.calls[k])
            && var old_ := if t in table.calls then table.calls[t] else NOTHING_PENDING;
               var new_ := table'.calls[t];
               && new_.stopped == old_.stopped && (old_.started ==> new_.started)
               && (if t in table.calls then IndexOf(table', t) == IndexOf(table, t) && table'.next == table.next
                   else IndexOf(table', t) == table.next && table'.next == table.next + 1)
               && (u.start.Some? <==> !old_.started && new_.started)
               && (u.start.Some? ==> u.start.value.index == IndexOf(table', t))
               && (u.delta.Some? ==> new_.started && u.delta.value.index == IndexOf(table', t))
  {
    var (p, next) := Allocate(table, t);
    AbsorbEffect(p, d);
    EmitEffect(Absorb(p, d), t);
  }

  lemma AbsorbEffect(p: Pending, d: ToolDelta)
    ensures var q := Absorb(p, d);
            q.anthropicIndex == p.anthropicIndex && q.started == p.started && q.stopped == p.stopped
  {}

  lemma EmitEffect(p: Pending, t: nat)
    ensures var (q, u) := Emit(p, t);
            && q.anthropicIndex == p.anthropicIndex && q.stopped == p.stopped && (p.started ==> q.started)
            && (u.start.Some? <==> !p.started && q.started)
            && (u.start.Some? ==> u.start.value.index == p.anthropicIndex.GetOr(t))
            && (u.delta.Some? ==> q.started && u.delta.value.index == p.anthropicIndex.GetOr(t))
  {}

  /** The events that a start and a fragment of one call turn into. */
  function Rendered(index: nat, outs: seq<Out>): seq<Event> {
    if outs == [] then []
    else
      Rendered(index, outs[..|outs| - 1])
      + [match outs[|outs| - 1]
         case Started(id, name) => Start(index, StartToolUse(id, name, ""))
         case Sent(json) => Send(index, InputJsonDelta(json))
         case Stopped => Stop(index)]
  }

  function StartEvents(index: nat, start: Option<ToolStart>): seq<Event> {
    if start.Some? then [Start(index, StartToolUse(start.value.id, start.value.name, ""))] else []
  }

  function FragmentEvents(index: nat, delta: Option<Fragment>): seq<Event> {
    if delta.Some? then [Send(index, InputJsonDelta(delta.value.partialJson))] else []
  }

  lemma RenderedOuts(index: nat, outs: seq<Out>, start: Option<ToolStart>, delta: Option<Fragment>)
    ensures Rendered(index, outs + Outs(start, delta)) ==
            Rendered(index, outs) + StartEvents(index, start) + FragmentEvents(index, delta)
  {
    var first := if start.Some? then outs + [Started(start.value.id, start.value.name)] else outs;
    assert start.Some? ==> first[..|outs|] == outs;
    if delta.Some? {
      assert outs + Outs(start, delta) == first + [Sent(delta.value.partialJson)];
      assert (first + [Sent(delta.value.partialJson)])[..|first|] == first;
    } else {
      assert outs + Outs(start, delta) == first;
    }
  }

  /** `s'` adds exactly the start and fragment of one call at `index` to the stream. */
  ghost predicate ToolEvents(s: Translator, s': Translator, index: nat, start: Option<ToolStart>,
                             delta: Option<Fragment>) {
    && TextSent(s'.sent) == TextSent(s.sent) && ThinkingSent(s'.sent) == ThinkingSent(s.sent)
    && Project(s'.sent, index) == Project(s.sent, index) + StartEvents(index, start) + FragmentEvents(index, delta)
  }

  /** Only call `t` has changed, and keeps its index or gets a fresh one. */
  ghost predicate OneCallChanged(before: Table, after: Table, t: nat) {
    && Indexed(after) && after.calls.Keys == before.calls.Keys + {t} && before.next <= after.next
    && (forall k <- before.calls :: k != t ==> after.calls[k] == before.calls[k])
    && if t in before.calls then IndexOf(after, t) == IndexOf(before, t) else IndexOf(after, t) == before.next
  }

  predicate WasStarted(table: Table, t: nat) { t in table.calls && table.calls[t].started }

  /** The grammar after the block at `index` was started, or not. */
  function Starting(g: Grammar, index: nat, starts: bool): Grammar {
    if starts then g.(used := g.used + {index}, tools := g.tools + {index}) else g
  }

  /** The table changed under one call, whose block is started if `starts`. */
  lemma TableTracks(s: Translator, g: Grammar, done: set<nat>, t: nat, table: Table, starts: bool)
    requires s.preludeSent && Tracks(s, g, done) && t !in done && OneCallChanged(s.table, table, t)
    requires !table.calls[t].stopped && table.calls[t].started == (WasStarted(s.table, t) || starts)
    requires starts ==> s.active.None? && !WasStarted(s.table, t)
    ensures Tracks(s.(table := table), Starting(g, IndexOf(table, t), starts), done)
    ensures WasStarted(s.table, t) <==> IndexOf(table, t) in g.used
    ensures !starts && table.calls[t].started ==> IndexOf(table, t) in g.tools
  {
    UnstartedIsUnused(s, g, done, t, table);
    CallsTrackOn(s.table, g, done, t, table, starts);
    ToolsTrackOn(s.table, g, done, t, table, starts);
    NotActive(s, g, done, t, table);
  }

  lemma UnstartedIsUnused(s: Translator, g: Grammar, done: set<nat>, t: nat, table: Table)
    requires s.preludeSent && Tracks(s, g, done) && t !in done && OneCallChanged(s.table, table, t)
    ensures if WasStarted(s.table, t) then IndexOf(table, t) in g.tools else IndexOf(table, t) !in g.used
    ensures WasStarted(s.table, t) ==> IndexOf(table, t) in g.used
  {}

  lemma NotActive(s: Translator, g: Grammar, done: set<nat>, t: nat, table: Table)
    requires s.preludeSent && Tracks(s, g, done) && OneCallChanged(s.table, table, t)
    ensures forall k <- table.calls :: Some(IndexOf(table, k)) != s.active
  {
    forall k | k in table.calls ensures Some(IndexOf(table, k)) != s.active {
      assert k != t ==> k in s.table.calls && IndexOf(table, k) == IndexOf(s.table, k);
    }
  }

  lemma CallsTrackOn(before: Table, g: Grammar, done: set<nat>, t: nat, table: Table, starts: bool)
    requires Indexed(before) && CallsTrack(before, g, done) && t !in done && OneCallChanged(before, table, t)
    requires !table.calls[t].stopped && table.calls[t].started == (WasStarted(before, t) || starts)
    requires if WasStarted(before, t) then IndexOf(table, t) in g.tools else IndexOf(table, t) !in g.used
    ensures CallsTrack(table, Starting(g, IndexOf(table, t), starts), done)
  {}

  lemma ToolsTrackOn(before: Table, g: Grammar, done: set<nat>, t: nat, table: Table, starts: bool)
    requires ToolsTrack(before, g, done) && t !in done && OneCallChanged(before, table, t)
    requires table.calls[t].started == (WasStarted(before, t) || starts)
    ensures ToolsTrack(table, Starting(g, IndexOf(table, t), starts), done)
  {
    forall w, k | HasOpen(before, done, w, k) ensures HasOpen(table, done, w, k) {}
    if starts {
      assert HasOpen(table, done, t, IndexOf(table, t));
    }
  }

  /** A start and a fragment for block `index`, read by the grammar. */
  lemma ToolEventsRead(s: Translator, index: nat, start: Option<ToolStart>, delta: Option<Fragment>)
    requires start.Some? ==> start.value.index == index
    requires delta.Some? ==> delta.value.index == index
    requires var g := ReadAll(START, s.sent);
             && g.phase == Open && !g.signed
             && (start.Some? ==> g.current.None? && index !in g.used)
             && (delta.Some? && start.None? ==> index in g.tools)
    ensures var s' := FragmentOut(StartOut(s, start), delta);
            && s' == s.(sent := s'.sent)
            && ToolEvents(s, s', index, start, delta)
            && ReadAll(START, s'.sent) == AfterStart(ReadAll(START, s.sent), index, start)
    ensures forall k: nat :: k != index
              ==> Project(FragmentOut(StartOut(s, start), delta).sent, k) == Project(s.sent, k)
  {
    var b := StartOut(s, start);
    StartRead(s, index, start);
    FragmentRead(b, index, delta);
  }

  function AfterStart(g: Grammar, index: nat, start: Option<ToolStart>): Grammar { Starting(g, index, start.Some?) }

  lemma StartRead(s: Translator, index: nat, start: Option<ToolStart>)
    requires start.Some? ==> start.value.index == index
    requires var g := ReadAll(START, s.sent);
             start.Some? ==> g.phase == Open && !g.signed && g.current.None? && index !in g.used
    ensures var s' := StartOut(s, start);
            && s' == s.(sent := s'.sent)
            && TextSent(s'.sent) == TextSent(s.sent) && ThinkingSent(s'.sent) == ThinkingSent(s.sent)
            && Project(s'.sent, index) == Project(s.sent, index) + StartEvents(index, start)
            && ReadAll(START, s'.sent) == AfterStart(ReadAll(START, s.sent), index, start)
    ensures forall k: nat :: k != index ==> Project(StartOut(s, start).sent, k) == Project(s.sent, k)
  {
    if start.Some? {
      OneMore(s.sent, Start(index, StartToolUse(start.value.id, start.value.name, "")));
    }
  }

  lemma FragmentRead(s: Translator, index: nat, delta: Option<Fragment>)
    requires delta.Some? ==> delta.value.index == index
    requires var g := ReadAll(START, s.sent);
             delta.Some? ==> g.phase == Open && !g.signed && index in g.tools
    ensures var s' := FragmentOut(s, delta);
            && s' == s.(sent := s'.sent)
            && TextSent(s'.sent) == TextSent(s.sent) && ThinkingSent(s'.sent) == ThinkingSent(s.sent)
            && Project(s'.sent, index) == Project(s.sent, index) + FragmentEvents(index, delta)
            && ReadAll(START, s'.sent) == ReadAll(START, s.sent)
    ensures forall k: nat :: k != index ==> Project(FragmentOut(s, delta).sent, k) == Project(s.sent, k)
  {
    if delta.Some? {
      OneMore(s.sent, Send(index, InputJsonDelta(delta.value.partialJson)));
    }
  }

  /** What an update announces fits the change of the table under call `t`. */
  ghost predicate UpdateFits(before: Table, after: Table, t: nat, u: Update) {
    && OneCallChanged(before, after, t)
    && (t in before.calls ==> after.calls[t].stopped == before.calls[t].stopped)
    && (t !in before.calls ==> !after.calls[t].stopped)
    && after.calls[t].started == (WasStarted(before, t) || u.start.Some?)
    && (u.start.Some? ==> !WasStarted(before, t) && u.start.value.index == IndexOf(after, t))
    && (u.delta.Some? ==> after.calls[t].started && u.delta.value.index == IndexOf(after, t))
  }

  lemma ApplyDeltaFits(table: Table, t: nat, d: ToolDelta)
    requires Indexed(table)
    ensures UpdateFits(table, ApplyDelta(table, t, d).0, t, ApplyDelta(table, t, d).1)
  {
    ApplyDeltaEffect(table, t, d);
  }

  /** The update of call `t` once no block stands in the way of its start. */
  lemma UpdateFrom(c: Translator, t: nat, table: Table, u: Update, done: set<nat>)
    requires Good(c, done) && t !in done && UpdateFits(c.table, table, t, u)
    requires u.start.Some? ==> c.active.None?
    ensures var s' := FragmentOut(StartOut(c.(table := table), u.start), u.delta);
            && Good(s', done) && s' == c.(table := table, sent := s'.sent)
            && ToolEvents(c, s', IndexOf(table, t), u.start, u.delta)
            && forall k: nat :: k != IndexOf(table, t) ==> Project(s'.sent, k) == Project(c.sent, k)
  {
    TableTracks(c, ReadAll(START, c.sent), done, t, table, u.start.Some?);
    ToolEventsRead(c.(table := table), IndexOf(table, t), u.start, u.delta);
  }

  lemma UpdateOutIs(s: Translator, table: Table, u: Update)
    ensures UpdateOut(s.(table := table), u)
            == FragmentOut(StartOut((if u.start.Some? then Closed(s) else s).(table := table), u.start), u.delta)
  {
    assert Closed(s.(table := table)) == Closed(s).(table := table);
  }

  lemma ClearedGood(s: Translator, close: bool, done: set<nat>)
    requires Good(s, done)
    ensures var c := if close then Closed(s) else s;
            && Good(c, done) && c == s.(sent := c.sent, active := c.active, activeKind := c.activeKind)
            && (close || s.active.None? ==> c.active.None?)
            && TextSent(c.sent) == TextSent(s.sent) && ThinkingSent(c.sent) == ThinkingSent(s.sent)
            && forall k: nat :: Some(k) != s.active ==> Project(c.sent, k) == Project(s.sent, k)
  {
    ClosedGood(s, done);
    assert TextSent(s.sent) + "" == TextSent(s.sent) && ThinkingSent(s.sent) + "" == ThinkingSent(s.sent);
  }

  lemma UpdateGood(s: Translator, t: nat, table: Table, u: Update, done: set<nat>)
    requires Good(s, done) && t !in done && UpdateFits(s.table, table, t, u)
    ensures var s' := UpdateOut(s.(table := table), u);
            && Good(s', done)
            && s'.table == table && s'.parser == s.parser && s'.policy == s.policy && s'.stopReason == s.stopReason
            && (s.active.None? ==> s'.active.None?)
            && ToolEvents(s, s', IndexOf(table, t), u.start, u.delta)
            && forall k <- s.table.calls :: k != t
                 ==> Project(s'.sent, IndexOf(s.table, k)) == Project(s.sent, IndexOf(s.table, k))
  {
    var c := if u.start.Some? then Closed(s) else s;
    NotActive(s, ReadAll(START, s.sent), done, t, table);
    ClearedGood(s, u.start.Some?, done);
    UpdateFrom(c, t, table, u, done);
    UpdateOutIs(s, table, u);
    OthersApart(s.table, table, t);
  }

  lemma ToolOutGood(s: Translator, t: nat, d: ToolDelta, done: set<nat>)
    requires Good(s, done) && t !in done
    ensures var s' := ToolOut(s, t, d);
            var (table, u) := ApplyDelta(s.table, t, d);
            && Good(s', done)
            && s'.table == table && s'.parser == s.parser && s'.policy == s.policy && s'.stopReason == s.stopReason
            && ToolEvents(s, s', IndexOf(table, t), u.start, u.delta)
            && (s.active.None? ==> s'.active.None?)
    ensures forall k <- s.table.calls ::
              k != t ==> Project(ToolOut(s, t, d).sent, IndexOf(s.table, k)) == Project(s.sent, IndexOf(s.table, k))
  {
    ApplyDeltaFits(s.table, t, d);
    UpdateGood(s, t, ApplyDelta(s.table, t, d).0, ApplyDelta(s.table, t, d).1, done);
  }

  /** The other calls have other indexes, and keep them. */
  lemma OthersApart(before: Table, after: Table, t: nat)
    requires OneCallChanged(before, after, t)
    ensures forall k <- before.calls :: k != t ==> IndexOf(after, k) == IndexOf(before, k) != IndexOf(after, t)
    ensures forall k <- before.calls :: k in after.calls && IndexOf(after, k) == IndexOf(before, k)
  {}

  // ----- flushing the tool calls at the end -----

  lemma StopRead(s: Translator, index: nat)
    requires var g := ReadAll(START, s.sent);
             g.phase == Open && !g.signed && g.current.None? && index in g.tools
    ensures var s' := Emitting(s, Stop(index));
            && TextSent(s'.sent) == TextSent(s.sent) && ThinkingSent(s'.sent) == ThinkingSent(s.sent)
            && Project(s'.sent, index) == Project(s.sent, index) + [Stop(index)]
            && ReadAll(START, s'.sent) == ReadAll(START, s.sent).(tools := ReadAll(START, s.sent).tools - {index})
    ensures forall k: nat :: k != index ==> Project(Emitting(s, Stop(index)).sent, k) == Project(s.sent, k)
  {
    OneMore(s.sent, Stop(index));
  }

  /** The events of a block followed by those of a stop update. */
  function WithStop(before: seq<Event>, index: nat, u: StopUpdate): seq<Event> {
    if u.stopIndex.None? then before
    else before + StartEvents(index, u.start) + FragmentEvents(index, u.delta) + [Stop(index)]
  }

  function AfterStop(g: Grammar, index: nat, u: StopUpdate): Grammar {
    if u.stopIndex.None? then g
    else g.(used := AfterStart(g, index, u.start).used, tools := g.tools - {index})
  }

  /** The stop update concerns block `index`, which the grammar can start or stop. */
  ghost predicate Stoppable(g: Grammar, index: nat, u: StopUpdate) {
    && (u.start.Some? ==> u.start.value.index == index)
    && (u.delta.Some? ==> u.delta.value.index == index)
    && (u.stopIndex.Some? ==> u.stopIndex.value == index)
    && (u.stopIndex.Some? ==> if u.start.Some? then index !in g.used && index !in g.tools else index in g.tools)
  }

  lemma StopOutRead(s: Translator, index: nat, u: StopUpdate)
    requires var g := ReadAll(START, s.sent);
             g.phase == Open && !g.signed && g.current.None? && Stoppable(g, index, u)
    ensures var s' := StopOut(s, u);
            && s' == s.(sent := s'.sent)
            && TextSent(s'.sent) == TextSent(s.sent) && ThinkingSent(s'.sent) == ThinkingSent(s.sent)
            && Project(s'.sent, index) == WithStop(Project(s.sent, index), index, u)
            && ReadAll(START, s'.sent) == AfterStop(ReadAll(START, s.sent), index, u)
    ensures forall k: nat :: k != index ==> Project(StopOut(s, u).sent, k) == Project(s.sent, k)
  {
    if u.stopIndex.Some? {
      ToolEventsRead(s, index, u.start, u.delta);
      StopRead(FragmentOut(StartOut(s, u.start), u.delta), index);
      var tools := ReadAll(START, s.sent).tools;
      assert u.start.Some? ==> tools + {index} - {index} == tools - {index};
    }
  }

  /** What the flush of one call does to the table and announces. */
  lemma FlushEffect(table: Table, t: nat)
    requires Indexed(table) && t in table.calls && !table.calls[t].stopped
    ensures var (table', u) := FlushStop(table, t);
            var index := IndexOf(table, t);
            && Indexed(table') && table'.calls.Keys == table.calls.Keys && IndexOf(table', t) == index
            && table'.next == table.next
            && (forall k <- table.calls :: k != t ==> table'.calls[k] == table.calls[k])
            && (u.start.Some? ==> u.start.value.index == index) && (u.delta.Some? ==> u.delta.value.index == index)
            && (u.stopIndex.Some? ==> u.stopIndex.value == index)
            && (table.calls[t].started ==> u.stopIndex.Some?)
            && (u.stopIndex.Some? ==> (u.start.Some? <==> !table.calls[t].started))
  {
    StopEffect(table.calls[t], t);
  }

  lemma StopEffect(p: Pending, t: nat)
    requires !p.stopped
    ensures var (q, u) := Flush(p, t);
            var index := p.anthropicIndex.GetOr(t);
            && q.anthropicIndex == p.anthropicIndex
            && (u.start.Some? ==> u.start.value.index == index) && (u.delta.Some? ==> u.delta.value.index == index)
            && (u.stopIndex.Some? ==> u.stopIndex.value == index)
            && (p.started ==> u.stopIndex.Some?)
            && (u.stopIndex.Some? ==> (u.start.Some? <==> !p.started))
  {}

  lemma FlushTracks(s: Translator, g: Grammar, done: set<nat>, t: nat)
    requires s.preludeSent && Tracks(s, g, done) && t in s.table.calls && t !in done && s.active.None?
    ensures var (table, u) := FlushStop(s.table, t);
            var index := IndexOf(s.table, t);
            Stoppable(g, index, u) && Tracks(s.(table := table), AfterStop(g, index, u), done + {t})
  {
    FlushEffect(s.table, t);
    var (table, u) := FlushStop(s.table, t);
    var index := IndexOf(s.table, t);
    assert s.table.calls[t].started ==> index in g.tools;
    var g' := AfterStop(g, index, u);
    forall k | k in g'.tools ensures k in g'.used && exists w :: HasOpen(table, done + {t}, w, k) {
      var w :| HasOpen(s.table, done, w, k);
      assert w != t;
      assert HasOpen(table, done + {t}, w, k);
    }
  }

  /** The stop of call `t`, for the translator that has seen its last delta. */
  lemma StopGood(m: Translator, t: nat, done: set<nat>)
    requires Good(m, done) && t in m.table.calls && t !in done && m.active.None?
    ensures var (table, u) := FlushStop(m.table, t);
            var s', index := StopOut(m.(table := table), u), IndexOf(m.table, t);
            && s' == m.(table := table, sent := s'.sent) && Good(s', done + {t})
            && TextSent(s'.sent) == TextSent(m.sent) && ThinkingSent(s'.sent) == ThinkingSent(m.sent)
            && Project(s'.sent, index) == WithStop(Project(m.sent, index), index, u)
            && forall k: nat :: k != index ==> Project(s'.sent, k) == Project(m.sent, k)
  {
    var (table, u) := FlushStop(m.table, t);
    FlushTracks(m, ReadAll(START, m.sent), done, t);
    StopOutRead(m.(table := table), IndexOf(m.table, t), u);
  }

  /** `s'` is `s` with call `t` flushed; the other calls are untouched. */
  ghost predicate Flushed(s: Translator, s': Translator, t: nat)
    requires t in s.table.calls
  {
    && s'.active.None? && s'.stopReason == s.stopReason
    && s'.table.calls.Keys == s.table.calls.Keys && IndexOf(s'.table, t) == IndexOf(s.table, t)
    && TextSent(s'.sent) == TextSent(s.sent) && ThinkingSent(s'.sent) == ThinkingSent(s.sent)
    && forall k <- s.table.calls :: k != t ==>
         s'.table.calls[k] == s.table.calls[k]
           && Project(s'.sent, IndexOf(s.table, k)) == Project(s.sent, IndexOf(s.table, k))
  }

  /** The empty delta before the stop changes nothing about the other calls. */
  lemma LastDeltaGood(s: Translator, t: nat, done: set<nat>)
    requires Good(s, done) && t in s.table.calls && t !in done && s.active.None?
    ensures Good(ToolOut(s, t, EMPTY_DELTA), done) && Flushed(s, ToolOut(s, t, EMPTY_DELTA), t)
  {
    ToolOutGood(s, t, EMPTY_DELTA, done);
    ApplyDeltaFits(s.table, t, EMPTY_DELTA);
  }

  lemma ToolFlushedGood(s: Translator, t: nat, done: set<nat>)
    requires Good(s, done) && t in s.table.calls && t !in done && s.active.None?
    ensures Good(ToolFlushed(s, t), done + {t})
    ensures Flushed(s, ToolFlushed(s, t), t)
    ensures var m, index := ToolOut(s, t, EMPTY_DELTA), IndexOf(s.table, t);
            Project(ToolFlushed(s, t).sent, index) == WithStop(Project(m.sent, index), index, FlushStop(m.table, t).1)
  {
    var m := ToolOut(s, t, EMPTY_DELTA);
    LastDeltaGood(s, t, done);
    StopGood(m, t, done);
    FlushEffect(m.table, t);
    OthersKept(s, m, ToolFlushed(s, t), t);
  }

  lemma OthersKept(s: Translator, m: Translator, s': Translator, t: nat)
    requires t in s.table.calls && Indexed(s.table) && Flushed(s, m, t)
    requires s'.active == m.active && s'.stopReason == m.stopReason
    requires s'.table.calls.Keys == m.table.calls.Keys && IndexOf(s'.table, t) == IndexOf(m.table, t)
    requires TextSent(s'.sent) == TextSent(m.sent) && ThinkingSent(s'.sent) == ThinkingSent(m.sent)
    requires forall k <- m.table.calls :: k != t ==> s'.table.calls[k] == m.table.calls[k]
    requires forall k: nat :: k != IndexOf(m.table, t) ==> Project(s'.sent, k) == Project(m.sent, k)
    ensures Flushed(s, s', t)
  {}
}
