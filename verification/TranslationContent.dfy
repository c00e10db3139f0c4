/** What a translated stream says, in terms of the upstream chunks alone. */
module TranslationContent {
  import opened Common
  import opened AnthropicEvents
  import opened AnthropicStream
  import opened AnthropicStreamTheorems
  import opened TranslationTheorems
  import R = ReasoningText

  /** The upstream content, chunk by chunk. */
  function Contents(chunks: seq<Chunk>): seq<string> {
    if chunks == [] then [] else Contents(chunks[..|chunks| - 1]) + [chunks[|chunks| - 1].content.GetOr("")]
  }

  function Reasonings(chunks: seq<Chunk>): seq<string> {
    if chunks == [] then [] else Reasonings(chunks[..|chunks| - 1]) + [ReasoningOf(chunks[|chunks| - 1])]
  }

  /** A chunk's reasoning is its `reasoning_content`, if that is there at all, and otherwise its `thinking`; what
      is no string is no reasoning. */
  lemma ReasoningTold(chunk: Chunk)
    ensures ReasoningOf(chunk) ==
            if chunk.reasoningContent.Str? then chunk.reasoningContent.value
            else if chunk.reasoningContent.Absent? && chunk.thinking.Str? then chunk.thinking.value
            else ""
  {}

  /** All of the upstream content. */
  function AllContent(chunks: seq<Chunk>): string { Flatten(Contents(chunks)) }

  lemma ContentMore(chunks: seq<Chunk>)
    requires chunks != []
    ensures AllContent(chunks) == AllContent(chunks[..|chunks| - 1]) + chunks[|chunks| - 1].content.GetOr("")
    ensures Flatten(Reasonings(chunks))
            == Flatten(Reasonings(chunks[..|chunks| - 1])) + ReasoningOf(chunks[|chunks| - 1])
  {
    FlattenAppend(Contents(chunks[..|chunks| - 1]), chunks[|chunks| - 1].content.GetOr(""));
    FlattenAppend(Reasonings(chunks[..|chunks| - 1]), ReasoningOf(chunks[|chunks| - 1]));
  }

  lemma OneText(text: string, policy: ThinkingPolicy)
    ensures R.TextOf(View([R.Text(text)], policy)) == text && R.ThinkingOf(View([R.Text(text)], policy)) == ""
  {}

  // ----- without a reasoning parser -----

  lemma {:induction false} ToldPlain(chunks: seq<Chunk>, policy: ThinkingPolicy)
    ensures var told := TellAll(None, chunks, policy);
            && told.parser == None
            && told.text == AllContent(chunks)
            && told.thinking == if policy == PlaceholderThinking then Flatten(Reasonings(chunks)) else ""
  {
    if chunks != [] {
      ToldPlain(chunks[..|chunks| - 1], policy);
      ContentMore(chunks);
      OneText(chunks[|chunks| - 1].content.GetOr(""), policy);
    }
  }

  // ----- with a reasoning parser -----

  /** The separate reasoning up to the chunk that completes the tag in the content, that chunk's own
      included, and the separate reasoning after it. */
  function ReasoningAround(chunks: seq<Chunk>): (string, string) {
    if chunks == [] then ("", "")
    else
      var front, reasoning := chunks[..|chunks| - 1], ReasoningOf(chunks[|chunks| - 1]);
      var (before, after) := ReasoningAround(front);
      if R.SplitReasoningText(AllContent(front)).Some? then (before, after + reasoning) else (before + reasoning, "")
  }

  lemma {:induction false} AroundIsAll(chunks: seq<Chunk>)
    ensures ReasoningAround(chunks).0 + ReasoningAround(chunks).1 == Flatten(Reasonings(chunks))
    ensures R.SplitReasoningText(AllContent(chunks)).None? ==> ReasoningAround(chunks).1 == ""
  {
    if chunks != [] {
      var front := chunks[..|chunks| - 1];
      AroundIsAll(front);
      ContentMore(chunks);
      if R.SplitReasoningText(AllContent(front)).Some? {
        R.SplitStays(AllContent(front), chunks[|chunks| - 1].content.GetOr(""));
      }
      var (before, after) := ReasoningAround(front);
      Assoc(before, after, ReasoningOf(chunks[|chunks| - 1]));
      assert before + "" == before;
      assert forall x: string :: x + "" == x;
    }
  }

  /** What a translator with a parser is told by the chunks. */
  ghost predicate ToldParsed(told: Told, chunks: seq<Chunk>, policy: ThinkingPolicy) {
    var (state, thinking, text) := R.Digest(AllContent(chunks));
    var (before, after) := ReasoningAround(chunks);
    && told.parser == Some(state)
    && told.text == (if policy == PlaceholderThinking then text else thinking + text)
    && told.thinking == if policy == PlaceholderThinking then (before + thinking) + after else ""
  }

  /** One push, seen by a client. */
  lemma PushTold(seen: string, piece: string, policy: ThinkingPolicy)
    ensures var (state, thinking, text) := R.Digest(seen);
            var (next, thinking', text') := R.Digest(seen + piece);
            var view := View(R.Pushed(state, piece).1, policy);
            && next == R.Pushed(state, piece).0
            && if policy == PlaceholderThinking
               then thinking' == thinking + R.ThinkingOf(view) && text' == text + R.TextOf(view)
               else thinking' + text' == (thinking + text) + R.TextOf(view) && R.ThinkingOf(view) == ""
    ensures R.SplitReasoningText(seen).Some? ==> R.Digest(seen + piece).1 == R.Digest(seen).1
  {
    R.DigestStep(seen, piece);
    R.SplitDigest(seen);
    var (state, thinking, text) := R.Digest(seen);
    var chunks := R.Pushed(state, piece).1;
    AllShown(chunks);
    if state.Passthrough? {
      NoThinking(chunks);
      assert thinking + "" == thinking;
    }
    Shuffle(thinking, text, R.ThinkingOf(chunks), R.TextOf(chunks));
  }

  lemma {:induction false} AllShown(chunks: seq<R.Chunk>)
    requires R.ThinkingBeforeText(chunks)
    ensures R.TextOf(AsText(chunks)) == R.ThinkingOf(chunks) + R.TextOf(chunks)
    ensures R.ThinkingOf(AsText(chunks)) == ""
  {
    if chunks != [] {
      var first, rest := chunks[0], chunks[1..];
      AllShown(rest);
      AsTextFirst(chunks);
      if first.Text? {
        NoThinking(rest);
      }
      Shuffle(R.ThinkingPart(first), R.TextPart(first), R.ThinkingOf(rest), R.TextOf(rest));
    }
  }

  lemma AsTextFirst(chunks: seq<R.Chunk>)
    requires chunks != []
    ensures R.TextOf(AsText(chunks))
            == (R.ThinkingPart(chunks[0]) + R.TextPart(chunks[0])) + R.TextOf(AsText(chunks[1..]))
    ensures R.ThinkingOf(AsText(chunks)) == R.ThinkingOf(AsText(chunks[1..]))
  {
    var shown := R.Text(R.ThinkingPart(chunks[0]) + R.TextPart(chunks[0]));
    assert AsText(chunks) == [shown] + AsText(chunks[1..]);
    R.OutputAppend([shown], AsText(chunks[1..]));
    OneChunk(shown);
  }

  lemma Shuffle(a: string, b: string, c: string, d: string)
    requires b == "" || c == ""
    ensures (a + b) + (c + d) == (a + c) + (b + d)
  {}

  lemma OneChunk(c: R.Chunk)
    ensures R.TextOf([c]) == R.TextPart(c) && R.ThinkingOf([c]) == R.ThinkingPart(c)
  {
    assert R.TextOf([c]) == R.TextPart(c) + R.TextOf([]);
    assert R.ThinkingOf([c]) == R.ThinkingPart(c) + R.ThinkingOf([]);
  }

  lemma {:induction false} NoThinking(chunks: seq<R.Chunk>)
    requires forall c <- chunks :: c.Text?
    ensures R.ThinkingOf(chunks) == ""
  {
    if chunks != [] {
      var rest := chunks[1..];
      assert forall c <- rest :: c in chunks;
      NoThinking(rest);
      assert chunks[0].Text? && R.ThinkingPart(chunks[0]) == "";
      assert "" + "" == "";
    }
  }

  lemma ToldReasoning(told: Told, front: seq<Chunk>, chunk: Chunk, policy: ThinkingPolicy)
    requires ToldParsed(told, front, policy)
    ensures var reasoning := if policy == PlaceholderThinking then ReasoningOf(chunk) else "";
            var (_, thinking, _) := R.Digest(AllContent(front));
            var (before, after) := ReasoningAround(front);
            told.thinking + reasoning ==
            if policy != PlaceholderThinking then ""
            else if R.SplitReasoningText(AllContent(front)).Some? then (before + thinking) + (after + reasoning)
            else before + reasoning
  {
    var (_, thinking, _) := R.Digest(AllContent(front));
    var (before, after) := ReasoningAround(front);
    AroundIsAll(front);
    R.SplitDigest(AllContent(front));
    Assoc(before + thinking, after, ReasoningOf(chunk));
    assert (before + "") + "" == before;
  }

  /** Parser and text are those of what was seen. */
  ghost predicate SaidOf(told: Told, seen: string, policy: ThinkingPolicy) {
    var (state, thinking, text) := R.Digest(seen);
    && told.parser == Some(state)
    && told.text == if policy == PlaceholderThinking then text else thinking + text
  }

  /** More content adds what the longer text amounts to; `gain` is the thinking that comes out. */
  lemma ContentTold(told: Told, seen: string, piece: string, policy: ThinkingPolicy) returns (gain: string)
    requires SaidOf(told, seen, policy)
    ensures SaidOf(TellContent(told, piece, policy), seen + piece, policy)
    ensures TellContent(told, piece, policy).thinking == told.thinking + gain
    ensures R.Digest(seen + piece).1 == R.Digest(seen).1 + gain || policy != PlaceholderThinking
    ensures policy != PlaceholderThinking || R.SplitReasoningText(seen).Some? ==> gain == ""
  {
    gain := "";
    assert forall x: string :: x + "" == x;
    if piece == "" {
      assert seen + piece == seen;
    } else {
      PushTold(seen, piece, policy);
      gain := R.ThinkingOf(View(R.Pushed(R.Digest(seen).0, piece).1, policy));
      GainNothing(R.Digest(seen).1, R.Digest(seen + piece).1, gain);
    }
  }

  lemma GainNothing(before: string, after: string, gain: string)
    ensures after == before + gain && after == before ==> gain == ""
  {}

  lemma ToldStep(told: Told, front: seq<Chunk>, chunk: Chunk, policy: ThinkingPolicy)
    requires ToldParsed(told, front, policy)
    ensures ToldParsed(TellChunk(told, chunk, policy), front + [chunk], policy)
  {
    var chunks, seen, piece := front + [chunk], AllContent(front), chunk.content.GetOr("");
    assert chunks[..|chunks| - 1] == front;
    ContentMore(chunks);
    ToldReasoning(told, front, chunk, policy);
    var reasoning := if policy == PlaceholderThinking then ReasoningOf(chunk) else "";
    var mid := told.(thinking := told.thinking + reasoning);
    var gain := ContentTold(mid, seen, piece, policy);
    if policy == PlaceholderThinking {
      ThinkingAdds(seen, piece, gain, ReasoningAround(front), reasoning);
    }
  }

  lemma ThinkingAdds(seen: string, piece: string, gain: string, around: (string, string), reasoning: string)
    requires R.Digest(seen + piece).1 == R.Digest(seen).1 + gain
    ensures R.SplitReasoningText(seen).Some? && gain == "" ==>
              ((around.0 + R.Digest(seen).1) + (around.1 + reasoning)) + gain
              == (around.0 + R.Digest(seen + piece).1) + (around.1 + reasoning)
    ensures R.SplitReasoningText(seen).None? ==>
              (around.0 + reasoning) + gain == ((around.0 + reasoning) + R.Digest(seen + piece).1) + ""
  {
    R.SplitDigest(seen);
    assert forall x: string :: x + "" == x && "" + x == x;
  }

  /** The chunks tell what they amount to. */
  ghost predicate ToldSoFar(chunks: seq<Chunk>, policy: ThinkingPolicy) {
    ToldParsed(TellAll(Some(R.INITIAL), chunks, policy), chunks, policy)
  }

  lemma ToldOn(front: seq<Chunk>, chunk: Chunk, policy: ThinkingPolicy)
    requires ToldSoFar(front, policy)
    ensures ToldSoFar(front + [chunk], policy)
  {
    var chunks := front + [chunk];
    assert chunks[..|chunks| - 1] == front;
    ToldStep(TellAll(Some(R.INITIAL), front, policy), front, chunk, policy);
  }

  lemma {:induction false} ToldAlways(chunks: seq<Chunk>, policy: ThinkingPolicy)
    ensures ToldSoFar(chunks, policy)
  {
    if chunks == [] {
      ToldNothing(policy);
    } else {
      var front, chunk := chunks[..|chunks| - 1], chunks[|chunks| - 1];
      assert front + [chunk] == chunks;
      ToldAlways(front, policy);
      ToldOn(front, chunk, policy);
    }
  }

  lemma ToldNothing(policy: ThinkingPolicy)
    ensures ToldParsed(Told(Some(R.INITIAL), "", ""), [], policy)
  {
    assert AllContent([]) == "";
    assert R.Digest("") == (R.INITIAL, "", "");
  }

  // ----- when nothing was begun -----

  /** The chunks give the client nothing: no tool call is mentioned, no reasoning is shown, and no
      content is let through. */
  predicate Unsaid(reasoning: bool, policy: ThinkingPolicy, chunks: seq<Chunk>) {
    && AllDeltas(chunks) == []
    && (policy == PlaceholderThinking ==> Flatten(Reasonings(chunks)) == "")
    && if reasoning then R.HeldBack(AllContent(chunks)) else AllContent(chunks) == ""
  }

  lemma TellsNothingIff(reasoning: bool, policy: ThinkingPolicy, chunks: seq<Chunk>)
    ensures var told := TellAll(NewTranslator(reasoning, policy).parser, chunks, policy);
            told.text == "" && told.thinking == "" && AllDeltas(chunks) == [] <==> Unsaid(reasoning, policy, chunks)
  {
    if reasoning {
      ToldAlways(chunks, policy);
      AroundIsAll(chunks);
      R.SplitDigest(AllContent(chunks));
      var (_, thinking, _) := R.Digest(AllContent(chunks));
      var (before, after) := ReasoningAround(chunks);
      EmptyParts(before, thinking, after);
    } else {
      ToldPlain(chunks, policy);
    }
  }

  lemma EmptyParts(a: string, b: string, c: string)
    ensures (a + b) + c == "" <==> a + c == "" && b == ""
  {}

  lemma PushSilentIff(parser: Option<R.ParseState>, content: string, policy: ThinkingPolicy)
    requires content != ""
    ensures var view := View(PushStep(parser, content).1, policy);
            R.TextOf(view) == "" && R.ThinkingOf(view) == "" <==> PushStep(parser, content).1 == []
  {
    var chunks := PushStep(parser, content).1;
    if parser.Some? {
      R.PushedSpeaks(parser.value, content);
    }
    if chunks != [] {
      var view := View(chunks, policy);
      assert chunks[0] in chunks;
      assert R.ThinkingPart(view[0]) + R.TextPart(view[0]) != "";
      assert R.TextOf(view) == R.TextPart(view[0]) + R.TextOf(view[1..]);
      assert R.ThinkingOf(view) == R.ThinkingPart(view[0]) + R.ThinkingOf(view[1..]);
    } else {
      assert View(chunks, policy) == [];
    }
  }

  /** Chunks that tell nothing leave the table as it was. */
  lemma {:induction false} NothingHappens(s: Translator, id: string, model: string, chunks: seq<Chunk>)
    requires var told := TellAll(s.parser, chunks, s.policy);
             told.text == "" && told.thinking == "" && AllDeltas(chunks) == []
    ensures var s' := RunChunks(s, id, model, chunks);
            s'.table == s.table && s'.policy == s.policy && s'.parser == TellAll(s.parser, chunks, s.policy).parser
    decreases |chunks|
  {
    if chunks != [] {
      var front, chunk := chunks[..|chunks| - 1], chunks[|chunks| - 1];
      NothingHappens(s, id, model, front);
      SilentChunk(Preluded(RunChunks(s, id, model, front), id, model), chunk, TellAll(s.parser, front, s.policy));
    }
  }

  lemma SilentChunk(s: Translator, chunk: Chunk, told: Told)
    requires told.text == "" && told.thinking == "" && s.parser == told.parser
    requires var next := TellChunk(told, chunk, s.policy); next.text == "" && next.thinking == ""
    requires AddressAll(chunk.toolCalls) == []
    ensures var s' := ChunkIn(s, chunk);
            s'.table == s.table && s'.policy == s.policy && s'.parser == TellChunk(told, chunk, s.policy).parser
  {
    var n := ReasoningIn(ReasonNoted(s, chunk), chunk);
    var content := chunk.content.GetOr("");
    assert n.table == s.table && n.parser == s.parser && n.policy == s.policy;
    if content != "" {
      PushSilentIff(s.parser, content, s.policy);
    }
  }

  /** No index has been used exactly when the chunks give the client nothing; only then the
      completion's text is taken. */
  lemma NothingBegunIff(reasoning: bool, policy: ThinkingPolicy, id: string, model: string, chunks: seq<Chunk>)
    ensures RunChunks(NewTranslator(reasoning, policy), id, model, chunks).table.next == 0
            <==> Unsaid(reasoning, policy, chunks)
  {
    var start := NewTranslator(reasoning, policy);
    TellsNothingIff(reasoning, policy, chunks);
    ChunksRun(reasoning, policy, id, model, chunks);
    if Unsaid(reasoning, policy, chunks) {
      NothingHappens(start, id, model, chunks);
    } else if AllDeltas(chunks) != [] {
      MentionedIsIndexed(RunChunks(start, id, model, chunks), AllDeltas(chunks));
    }
  }

  lemma MentionedIsIndexed(s: Translator, deltas: seq<Addressed>)
    requires Indexed(s.table) && Histories(s, deltas) && deltas != []
    ensures s.table.next > 0
  {
    var t := deltas[|deltas| - 1].0;
    assert Only(t, deltas) != [];
    assert t in s.table.calls && IndexOf(s.table, t) < s.table.next;
  }

  // ----- what the client reads -----

  /** Without a reasoning parser the client reads exactly the upstream content, glued together,
      or the completion's text when the chunks gave nothing; and with placeholder thinking
      exactly the upstream reasoning. */
  lemma PlainTranslationSays(policy: ThinkingPolicy, id: string, model: string, chunks: seq<Chunk>,
                             outputText: Option<string>)
    ensures var sent := Translation(NewTranslator(false, policy), id, model, chunks, outputText);
            && TextSent(sent) == (if Unsaid(false, policy, chunks) then outputText.GetOr("") else AllContent(chunks))
            && ThinkingSent(sent) == if policy == PlaceholderThinking then Flatten(Reasonings(chunks)) else ""
  {
    TranslationIsFaithful(false, policy, id, model, chunks, outputText);
    NothingBegunIff(false, policy, id, model, chunks);
    ToldPlain(chunks, policy);
    OneText(outputText.GetOr(""), policy);
    assert "" + outputText.GetOr("") == outputText.GetOr("");
  }

  /** What goes through the parser: the content, and behind it the completion's text when the chunks
      gave nothing, even if the parser holds content back. */
  function ParsedText(policy: ThinkingPolicy, chunks: seq<Chunk>, outputText: Option<string>): string {
    AllContent(chunks) + if Unsaid(true, policy, chunks) then outputText.GetOr("") else ""
  }

  /** Text and thinking that a parsed text comes to, with the reasoning sent on its own around it. */
  function Spoken(policy: ThinkingPolicy, parsed: string, around: (string, string)): (string, string) {
    match R.SplitReasoningText(parsed)
    case Some((thinking, text)) =>
      if policy == PlaceholderThinking then (text, (around.0 + thinking) + around.1) else (thinking + text, "")
    case None =>
      (R.Unsplit(parsed), if policy == PlaceholderThinking then around.0 + around.1 else "")
  }

  /** The rest that a finish lets through is text. */
  lemma FinishViewed(seen: string, policy: ThinkingPolicy)
    ensures var finished := R.Finished(R.Digest(seen).0);
            && R.TextOf(View(finished, policy)) == R.TextOf(finished)
            && R.ThinkingOf(View(finished, policy)) == ""
  {
    var finished := R.Finished(R.Digest(seen).0);
    R.FinishedSays(seen);
    AllShown(finished);
    assert "" + R.TextOf(finished) == R.TextOf(finished);
  }

  lemma SpokenAlone(policy: ThinkingPolicy, seen: string)
    ensures var (state, thinking, text) := R.Digest(seen);
            Spoken(policy, seen, ("", "")).0 ==
            (if policy == PlaceholderThinking then text else thinking + text) + R.TextOf(R.Finished(state))
  {
    var (state, thinking, text) := R.Digest(seen);
    R.SplitDigest(seen);
    R.FinishedSays(seen);
    if R.SplitReasoningText(seen).Some? {
      assert text + "" == text && (thinking + text) + "" == thinking + text;
    } else {
      assert "" + text == text;
    }
  }

  lemma FinishTold(told: Told, seen: string, policy: ThinkingPolicy)
    requires SaidOf(told, seen, policy)
    ensures var view := View(R.Finished(R.Digest(seen).0), policy);
            && told.text + R.TextOf(view) == Spoken(policy, seen, ("", "")).0
            && told.thinking + R.ThinkingOf(view) == told.thinking
  {
    FinishViewed(seen, policy);
    SpokenAlone(policy, seen);
    assert told.thinking + "" == told.thinking;
  }

  /** With the reasoning parser, for every sequence of chunks and every completion text: if the parsed
      text is `<think>t</think>r`, a client with placeholder thinking reads the text `r`, and the
      thinking `t` between the separate reasoning that came before and after the tag was complete; any
      other client reads the text `t` and `r`. Without a complete tag in front, the client reads the
      parsed text as it is, but for blanks before a tag that was opened with something behind it. */
  lemma ParsedTranslationSays(policy: ThinkingPolicy, id: string, model: string, chunks: seq<Chunk>,
                              outputText: Option<string>)
    ensures var sent := Translation(NewTranslator(true, policy), id, model, chunks, outputText);
            (TextSent(sent), ThinkingSent(sent))
            == Spoken(policy, ParsedText(policy, chunks, outputText), ReasoningAround(chunks))
  {
    TranslationIsFaithful(true, policy, id, model, chunks, outputText);
    NothingBegunIff(true, policy, id, model, chunks);
    ToldAlways(chunks, policy);
    EndTold(TellAll(Some(R.INITIAL), chunks, policy), policy, chunks, outputText);
  }

  lemma EndTold(told: Told, policy: ThinkingPolicy, chunks: seq<Chunk>, outputText: Option<string>)
    requires ToldParsed(told, chunks, policy)
    ensures var next := if Unsaid(true, policy, chunks) then 0 else 1;
            var end := TellEnd(told, next, outputText, policy);
            (end.text, end.thinking) == Spoken(policy, ParsedText(policy, chunks, outputText), ReasoningAround(chunks))
  {
    var seen, fill := AllContent(chunks), if Unsaid(true, policy, chunks) then outputText.GetOr("") else "";
    var filled := TellContent(told, fill, policy);
    var gain := ContentTold(told, seen, fill, policy);
    FinishTold(filled, seen + fill, policy);
    EndThinking(told, policy, chunks, fill, gain);
    FilledEnd(told, if Unsaid(true, policy, chunks) then 0 else 1, outputText, fill, policy);
    SpokenText(policy, seen + fill, ReasoningAround(chunks));
  }

  lemma FilledEnd(told: Told, next: nat, outputText: Option<string>, fill: string, policy: ThinkingPolicy)
    requires told.parser.Some? && fill == if next == 0 then outputText.GetOr("") else ""
    ensures var filled, end := TellContent(told, fill, policy), TellEnd(told, next, outputText, policy);
            && filled.parser.Some?
            && var view := View(R.Finished(filled.parser.value), policy);
               end.text == filled.text + R.TextOf(view) && end.thinking == filled.thinking + R.ThinkingOf(view)
  {}

  lemma SpokenText(policy: ThinkingPolicy, parsed: string, around: (string, string))
    ensures Spoken(policy, parsed, around).0 == Spoken(policy, parsed, ("", "")).0
  {}

  lemma EndThinking(told: Told, policy: ThinkingPolicy, chunks: seq<Chunk>, fill: string, gain: string)
    requires ToldParsed(told, chunks, policy)
    requires fill != "" ==> Unsaid(true, policy, chunks)
    requires policy == PlaceholderThinking
             ==> R.Digest(AllContent(chunks) + fill).1 == R.Digest(AllContent(chunks)).1 + gain
    requires policy != PlaceholderThinking ==> gain == ""
    ensures told.thinking + gain == Spoken(policy, AllContent(chunks) + fill, ReasoningAround(chunks)).1
  {
    var seen := AllContent(chunks);
    AroundIsAll(chunks);
    R.SplitDigest(seen);
    R.SplitDigest(seen + fill);
    assert forall x: string :: x + "" == x && "" + x == x;
    if fill == "" {
      assert seen + fill == seen;
      GainNothing(R.Digest(seen).1, R.Digest(seen + fill).1, gain);
    }
  }

  /** Text and thinking that a client reads, with or without a reasoning parser. */
  function Reading(reasoning: bool, policy: ThinkingPolicy, chunks: seq<Chunk>,
                   outputText: Option<string>): (string, string) {
    if reasoning then Spoken(policy, ParsedText(policy, chunks, outputText), ReasoningAround(chunks))
    else (if Unsaid(false, policy, chunks) then outputText.GetOr("") else AllContent(chunks),
          if policy == PlaceholderThinking then Flatten(Reasonings(chunks)) else "")
  }

  lemma TranslationSays(reasoning: bool, policy: ThinkingPolicy, id: string, model: string,
                        chunks: seq<Chunk>, outputText: Option<string>)
    ensures var sent := Translation(NewTranslator(reasoning, policy), id, model, chunks, outputText);
            (TextSent(sent), ThinkingSent(sent)) == Reading(reasoning, policy, chunks, outputText)
  {
    if reasoning {
      ParsedTranslationSays(policy, id, model, chunks, outputText);
    } else {
      PlainTranslationSays(policy, id, model, chunks, outputText);
    }
  }
}
