/** Splitting a `<think>…</think>` prefix off model output, in one shot and as a
    stream (unigateway-protocol/src/responses/reasoning_text.rs). */
module ReasoningText {
  import opened Common
  import opened Strings

  const OPEN_TAG := "<think>"
  const CLOSE_TAG := "</think>"

  datatype Chunk = Thinking(thinking: string) | Text(text: string)

  datatype ParseState =
    | DetectingOpen(buffer: string)
    | CollectingThinking(buffer: string)
    | Passthrough

  const INITIAL := DetectingOpen("")

  /** Position of the first occurrence of `needle`. */
  function Find(hay: string, needle: string): Option<nat> {
    if needle <= hay then Some(0)
    else if hay == "" then None
    else match Find(hay[1..], needle)
         case Some(i) => Some(i + 1)
         case None => None
  }

  /** The one-shot splitter. */
  function SplitReasoningText(content: string): Option<(string, string)> {
    var trimmed := TrimStart(content);
    if !(OPEN_TAG <= trimmed) then None
    else
      var remainder := trimmed[|OPEN_TAG|..];
      match Find(remainder, CLOSE_TAG)
      case None => None
      case Some(i) =>
        FindSound(remainder, CLOSE_TAG);
        Some((remainder[..i], remainder[i + |CLOSE_TAG|..]))
  }

  // ----- what one push and one finish do -----

  function NonEmptyChunks(thinking: string, text: string): seq<Chunk> {
    (if thinking != "" then [Thinking(thinking)] else []) + (if text != "" then [Text(text)] else [])
  }

  function Collect(combined: string): (ParseState, seq<Chunk>) {
    match Find(combined, CLOSE_TAG)
    case Some(i) =>
      FindSound(combined, CLOSE_TAG);
      (Passthrough, NonEmptyChunks(combined[..i], combined[i + |CLOSE_TAG|..]))
    case None => (CollectingThinking(combined), [])
  }

  function Detect(combined: string): (ParseState, seq<Chunk>) {
    var trimmed := TrimStart(combined);
    if trimmed <= OPEN_TAG then (DetectingOpen(combined), [])
    else if OPEN_TAG <= trimmed then Collect(trimmed[|OPEN_TAG|..])
    else (Passthrough, [Text(combined)])
  }

  function Pushed(state: ParseState, text: string): (ParseState, seq<Chunk>) {
    match state
    case DetectingOpen(buffer) => Detect(buffer + text)
    case CollectingThinking(buffer) => Collect(buffer + text)
    case Passthrough => (Passthrough, [Text(text)])
  }

  function Finished(state: ParseState): seq<Chunk> {
    match state
    case DetectingOpen(buffer) => if buffer == "" then [] else [Text(buffer)]
    case CollectingThinking(buffer) => [Text(OPEN_TAG + buffer)]
    case Passthrough => []
  }

  /** The incremental parser, as the source runs it. */
  class ReasoningTextStreamParser {
    var state: ParseState

    constructor ()
      ensures state == INITIAL
    {
      state := INITIAL;
    }

    method Push(text: string) returns (chunks: seq<Chunk>)
      modifies this
      ensures (state, chunks) == Pushed(old(state), text)
    {
      match state {
        case DetectingOpen(_) => chunks := PushDetectingOpen(text);
        case CollectingThinking(_) => chunks := PushCollectingThinking(text);
        case Passthrough => chunks := [Text(text)];
      }
    }

    method Finish() returns (chunks: seq<Chunk>)
      modifies this
      ensures state == INITIAL && chunks == Finished(old(state))
    {
      var taken := state;
      state := INITIAL;
      match taken {
        case DetectingOpen(buffer) => chunks := if buffer == "" then [] else [Text(buffer)];
        case CollectingThinking(buffer) => chunks := [Text(OPEN_TAG + buffer)];
        case Passthrough => chunks := [];
      }
    }

    method PushDetectingOpen(text: string) returns (chunks: seq<Chunk>)
      requires state.DetectingOpen?
      modifies this
      ensures (state, chunks) == Pushed(old(state), text)
    {
      var combined := state.buffer + text;
      state := INITIAL;
      var trimmed := TrimStart(combined);
      if trimmed <= OPEN_TAG {
        state := DetectingOpen(combined);
        return [];
      }
      if OPEN_TAG <= trimmed {
        state := CollectingThinking("");
        assert "" + trimmed[|OPEN_TAG|..] == trimmed[|OPEN_TAG|..];
        chunks := PushCollectingThinking(trimmed[|OPEN_TAG|..]);
        return;
      }
      state := Passthrough;
      return [Text(combined)];
    }

    method PushCollectingThinking(text: string) returns (chunks: seq<Chunk>)
      requires state.CollectingThinking?
      modifies this
      ensures (state, chunks) == Collect(old(state.buffer) + text)
    {
      var combined := state.buffer + text;
      state := INITIAL;
      match Find(combined, CLOSE_TAG) {
        case Some(closeIndex) =>
          FindSound(combined, CLOSE_TAG);
          var thinking := combined[..closeIndex];
          var remainder := combined[closeIndex + |CLOSE_TAG|..];
          state := Passthrough;
          chunks := [];
          if thinking != "" { chunks := [Thinking(thinking)]; }
          if remainder != "" { chunks := chunks + [Text(remainder)]; }
          assert chunks == NonEmptyChunks(thinking, remainder);
        case None =>
          state := CollectingThinking(combined);
          chunks := [];
      }
    }
  }

  // ----- searching and trimming are stable under appending -----

  /** `Find` reports a real occurrence, the first one, and misses none. */
  lemma {:induction false} FindSound(hay: string, needle: string)
    ensures Find(hay, needle).Some? ==>
              var i := Find(hay, needle).value;
              && i + |needle| <= |hay|
              && hay[i..i + |needle|] == needle
              && forall j :: 0 <= j < i ==> !(needle <= hay[j..])
    ensures Find(hay, needle).None? ==> forall j :: 0 <= j <= |hay| ==> !(needle <= hay[j..])
  {
    if needle <= hay {
    } else if hay == "" {
    } else {
      FindSound(hay[1..], needle);
      assert forall j :: 1 <= j <= |hay| ==> hay[j..] == hay[1..][j - 1..];
      assert hay[0..] == hay;
      if Find(hay, needle).Some? {
        var i := Find(hay, needle).value;
        assert hay[i..i + |needle|] == hay[1..][i - 1..i - 1 + |needle|];
      }
    }
  }

  lemma {:induction false} FindNowhere(hay: string, needle: string)
    requires forall j: nat :: j <= |hay| ==> !(needle <= hay[j..])
    ensures Find(hay, needle) == None
  {
    assert hay[0..] == hay;
    if hay != "" {
      forall j: nat | j <= |hay[1..]| ensures !(needle <= hay[1..][j..]) {
        assert hay[1..][j..] == hay[j + 1..];
      }
      FindNowhere(hay[1..], needle);
    }
  }

  lemma {:induction false} FindStable(hay: string, more: string, needle: string)
    requires Find(hay, needle).Some?
    ensures Find(hay + more, needle) == Find(hay, needle)
  {
    if !(needle <= hay) {
      FindSound(hay, needle);
      FindStable(hay[1..], more, needle);
      assert (hay + more)[1..] == hay[1..] + more;
    }
  }

  lemma {:induction false} TrimAppend(s: string, more: string)
    ensures TrimStart(s + more) == if TrimStart(s) == "" then TrimStart(more) else TrimStart(s) + more
  {
    if s == "" {
      assert s + more == more;
    } else if IsWhitespace(s[0]) {
      TrimAppend(s[1..], more);
      assert (s + more)[1..] == s[1..] + more;
    }
  }

  /** What is appended does not move a cut. */
  lemma CutAppended(text: string, more: string, at: nat)
    requires at <= |text|
    ensures (text + more)[..at] == text[..at] && (text + more)[at..] == text[at..] + more
  {}

  /** A complete tag stays the one it is. */
  lemma SplitStays(text: string, more: string)
    requires SplitReasoningText(text).Some?
    ensures SplitReasoningText(text + more).Some?
    ensures SplitReasoningText(text + more).value.0 == SplitReasoningText(text).value.0
  {
    TrimAppend(text, more);
    var trimmed := TrimStart(text);
    CutAppended(trimmed, more, |OPEN_TAG|);
    FindSound(trimmed[|OPEN_TAG|..], CLOSE_TAG);
    FindStable(trimmed[|OPEN_TAG|..], more, CLOSE_TAG);
  }

  // ----- whole runs -----

  function ThinkingPart(chunk: Chunk): string { if chunk.Thinking? then chunk.thinking else "" }

  function TextPart(chunk: Chunk): string { if chunk.Text? then chunk.text else "" }

  function ThinkingOf(chunks: seq<Chunk>): string {
    if chunks == [] then "" else ThinkingPart(chunks[0]) + ThinkingOf(chunks[1..])
  }

  function TextOf(chunks: seq<Chunk>): string {
    if chunks == [] then "" else TextPart(chunks[0]) + TextOf(chunks[1..])
  }

  lemma {:induction false} OutputAppend(a: seq<Chunk>, b: seq<Chunk>)
    ensures ThinkingOf(a + b) == ThinkingOf(a) + ThinkingOf(b)
    ensures TextOf(a + b) == TextOf(a) + TextOf(b)
  {
    if a == [] {
      assert a + b == b;
    } else {
      OutputAppend(a[1..], b);
      assert (a + b)[1..] == a[1..] + b && (a + b)[0] == a[0];
      Assoc(ThinkingPart(a[0]), ThinkingOf(a[1..]), ThinkingOf(b));
      Assoc(TextPart(a[0]), TextOf(a[1..]), TextOf(b));
    }
  }

  lemma NonEmptyOutput(thinking: string, text: string)
    ensures ThinkingOf(NonEmptyChunks(thinking, text)) == thinking
    ensures TextOf(NonEmptyChunks(thinking, text)) == text
  {
    var a := if thinking != "" then [Thinking(thinking)] else [];
    var b := if text != "" then [Text(text)] else [];
    assert ThinkingOf(a) == thinking && TextOf(a) == "";
    assert ThinkingOf(b) == "" && TextOf(b) == text;
    OutputAppend(a, b);
  }

  ghost predicate ThinkingBeforeText(chunks: seq<Chunk>) {
    forall i, j :: 0 <= i < j < |chunks| && chunks[i].Text? ==> chunks[j].Text?
  }

  /** State and chunks after pushing every piece in turn. */
  function PushAll(state: ParseState, pieces: seq<string>): (ParseState, seq<Chunk>)
    decreases |pieces|
  {
    if pieces == [] then (state, [])
    else
      var before := PushAll(state, pieces[..|pieces| - 1]);
      var last := Pushed(before.0, pieces[|pieces| - 1]);
      (last.0, before.1 + last.1)
  }

  /** What the parser holds and has put out after reading `text`, defined without any run:
      the state, the thinking and the text so far. */
  function Digest(text: string): (ParseState, string, string) {
    var trimmed := TrimStart(text);
    if trimmed <= OPEN_TAG then (DetectingOpen(text), "", "")
    else if OPEN_TAG <= trimmed then DigestInside(trimmed[|OPEN_TAG|..])
    else (Passthrough, "", text)
  }

  function DigestInside(rest: string): (ParseState, string, string) {
    match Find(rest, CLOSE_TAG)
    case None => (CollectingThinking(rest), "", "")
    case Some(i) =>
      FindSound(rest, CLOSE_TAG);
      (Passthrough, rest[..i], rest[i + |CLOSE_TAG|..])
  }

  /** Nothing of the text is let through yet: it may still become a tag, the tag is still open, or
      it is closed with nothing in it and nothing behind. */
  predicate HeldBack(text: string) {
    match SplitReasoningText(text)
    case Some((thinking, rest)) => thinking == "" && rest == ""
    case None => TrimStart(text) <= OPEN_TAG || OPEN_TAG <= TrimStart(text)
  }

  /** What a finished stream makes of a text that has no complete tag in front. */
  function Unsplit(text: string): string {
    if OPEN_TAG < TrimStart(text) then TrimStart(text) else text
  }

  /** The digest, told by the splitter. */
  lemma SplitDigest(text: string)
    ensures match SplitReasoningText(text)
            case Some((thinking, rest)) => Digest(text) == (Passthrough, thinking, rest)
            case None =>
              && Digest(text).1 == "" && Digest(text).2 == (if HeldBack(text) then "" else text)
              && Digest(text).2 + TextOf(Finished(Digest(text).0)) == Unsplit(text)
    ensures Digest(text).1 == "" && Digest(text).2 == "" <==> HeldBack(text)
  {
    var trimmed := TrimStart(text);
    if OPEN_TAG <= trimmed {
      assert trimmed == OPEN_TAG + trimmed[|OPEN_TAG|..];
    }
  }

  /** A finish lets no thinking through, and after a complete tag nothing at all. */
  lemma FinishedSays(text: string)
    ensures ThinkingOf(Finished(Digest(text).0)) == ""
    ensures SplitReasoningText(text).Some? ==> Finished(Digest(text).0) == []
  {
    SplitDigest(text);
  }

  /** Whatever comes out of a push is not empty. */
  lemma PushedSpeaks(state: ParseState, text: string)
    requires text != ""
    ensures forall c <- Pushed(state, text).1 :: ThinkingPart(c) + TextPart(c) != ""
  {}

  /** `next` is what has to come on top of `d` to reach `d'`. */
  ghost predicate Advances(d: (ParseState, string, string), next: (ParseState, seq<Chunk>),
                           d': (ParseState, string, string))
  {
    && d'.0 == next.0 && d'.1 == d.1 + ThinkingOf(next.1) && d'.2 == d.2 + TextOf(next.1)
    && (d.0.Passthrough? ==> forall c <- next.1 :: c.Text?)
    && (!next.0.Passthrough? ==> next.1 == [])
    && ThinkingBeforeText(next.1)
  }

  lemma CollectAdvances(rest: string)
    ensures Advances((CollectingThinking(""), "", ""), Collect(rest), DigestInside(rest))
  {
    FindSound(rest, CLOSE_TAG);
    if Find(rest, CLOSE_TAG).Some? {
      var i := Find(rest, CLOSE_TAG).value;
      NonEmptyOutput(rest[..i], rest[i + |CLOSE_TAG|..]);
    }
  }

  lemma InsideAdvances(rest: string, piece: string)
    ensures Advances(DigestInside(rest), Pushed(DigestInside(rest).0, piece), DigestInside(rest + piece))
  {
    FindSound(rest, CLOSE_TAG);
    if Find(rest, CLOSE_TAG).Some? {
      FindStable(rest, piece, CLOSE_TAG);
      var i := Find(rest, CLOSE_TAG).value;
      CutAppended(rest, piece, i);
      CutAppended(rest, piece, i + |CLOSE_TAG|);
    } else {
      CollectAdvances(rest + piece);
    }
  }

  /** One push turns the digest of what was read into the digest of the longer text. */
  lemma DigestStep(seen: string, piece: string)
    ensures Advances(Digest(seen), Pushed(Digest(seen).0, piece), Digest(seen + piece))
  {
    TrimAppend(seen, piece);
    var trimmed := TrimStart(seen);
    if trimmed <= OPEN_TAG {
      var longer := TrimStart(seen + piece);
      if !(longer <= OPEN_TAG) && OPEN_TAG <= longer {
        CollectAdvances(longer[|OPEN_TAG|..]);
      }
    } else if OPEN_TAG <= trimmed {
      CutAppended(trimmed, piece, |OPEN_TAG|);
      InsideAdvances(trimmed[|OPEN_TAG|..], piece);
    } else {
      var k :| 0 <= k < |OPEN_TAG| && k < |trimmed| && trimmed[k] != OPEN_TAG[k];
      assert (trimmed + piece)[k] != OPEN_TAG[k];
    }
  }

  lemma ExtendRun(run: (ParseState, seq<Chunk>), seen: string, piece: string)
    requires Matches(run, seen)
    ensures var last := Pushed(run.0, piece);
            Matches((last.0, run.1 + last.1), seen + piece)
  {
    DigestStep(seen, piece);
    OutputAppend(run.1, Pushed(run.0, piece).1);
  }

  /** State and output of a run agree with the digest of the text it read. */
  ghost predicate Matches(run: (ParseState, seq<Chunk>), seen: string) {
    && run.0 == Digest(seen).0
    && ThinkingOf(run.1) == Digest(seen).1
    && TextOf(run.1) == Digest(seen).2
    && ThinkingBeforeText(run.1)
    && (!run.0.Passthrough? ==> run.1 == [])
  }

  /** However the text is cut into pieces, the parser reaches the same state and has put out
      the same thinking and the same text, thinking first. */
  lemma {:induction false} CutsDoNotMatter(pieces: seq<string>)
    ensures Matches(PushAll(INITIAL, pieces), Flatten(pieces))
  {
    if pieces != [] {
      var front, last := pieces[..|pieces| - 1], pieces[|pieces| - 1];
      CutsDoNotMatter(front);
      assert pieces == front + [last];
      FlattenAppend(front, last);
      ExtendRun(PushAll(INITIAL, front), Flatten(front), last);
    }
  }

  /** The whole text, as a finished stream reports it. */
  function StreamOutput(pieces: seq<string>): seq<Chunk> {
    var run := PushAll(INITIAL, pieces);
    run.1 + Finished(run.0)
  }

  lemma ThinkingComesFirst(pieces: seq<string>)
    ensures ThinkingBeforeText(StreamOutput(pieces))
  {
    CutsDoNotMatter(pieces);
    var run := PushAll(INITIAL, pieces);
    assert if run.0.Passthrough? then StreamOutput(pieces) == run.1 else StreamOutput(pieces) == Finished(run.0);
  }

  /** The stream parser refines the one-shot splitter for every way of cutting the input.
      Where the splitter finds nothing all text comes back, except that leading blanks
      before an opened but never closed tag are lost. Finishing again yields nothing. */
  lemma StreamRefinesSplit(pieces: seq<string>)
    ensures var whole, out := Flatten(pieces), StreamOutput(pieces);
            && ThinkingBeforeText(out)
            && match SplitReasoningText(whole)
               case Some((thinking, text)) => ThinkingOf(out) == thinking && TextOf(out) == text
               case None => ThinkingOf(out) == "" && TextOf(out) == Unsplit(whole)
    ensures Finished(INITIAL) == []
  {
    ThinkingComesFirst(pieces);
    CutsDoNotMatter(pieces);
    var run := PushAll(INITIAL, pieces);
    OutputAppend(run.1, Finished(run.0));
    SplitDigest(Flatten(pieces));
    FinishedSays(Flatten(pieces));
  }

  /** Blanks are lost exactly when they precede an opened tag that is never closed. */
  lemma TextLostExactly(pieces: seq<string>)
    requires SplitReasoningText(Flatten(pieces)).None?
    ensures TextOf(StreamOutput(pieces)) == Flatten(pieces) <==>
            !(OPEN_TAG < TrimStart(Flatten(pieces)) && IsWhitespace(Flatten(pieces)[0]))
  {
    StreamRefinesSplit(pieces);
    var whole := Flatten(pieces);
    TrimShrinks(whole);
  }

  lemma {:induction false} TrimShrinks(s: string)
    ensures |TrimStart(s)| <= |s|
    ensures TrimStart(s) == s <==> s == "" || !IsWhitespace(s[0])
  {
    if s != "" && IsWhitespace(s[0]) {
      TrimShrinks(s[1..]);
    }
  }

  predicate AllBlank(s: string) { forall c <- s :: IsWhitespace(c) }

  lemma {:induction false} TrimmedBehind(blanks: string, text: string)
    requires AllBlank(blanks) && (text != "" ==> !IsWhitespace(text[0]))
    ensures TrimStart(blanks + text) == text
  {
    if blanks == "" {
      assert blanks + text == text;
    } else {
      assert (blanks + text)[1..] == blanks[1..] + text && blanks[0] in blanks;
      TrimmedBehind(blanks[1..], text);
    }
  }

  lemma {:induction false} FindFirst(front: string, needle: string, rest: string)
    requires forall i: nat :: i < |front| ==> !(needle <= (front + needle + rest)[i..])
    ensures Find(front + needle + rest, needle) == Some(|front|)
  {
    var hay := front + needle + rest;
    if front == "" {
      assert hay == needle + rest;
    } else {
      assert hay[0..] == hay;
      assert hay[1..] == front[1..] + needle + rest;
      forall i: nat | i < |front[1..]| ensures !(needle <= hay[1..][i..]) {
        assert hay[1..][i..] == hay[i + 1..];
      }
      FindFirst(front[1..], needle, rest);
    }
  }

  /** What is split: behind blanks, `<think>`, the thinking up to the first `</think>`, and the text. */
  lemma SplitTold(blanks: string, thinking: string, text: string)
    requires AllBlank(blanks)
    requires forall i: nat :: i < |thinking| ==> !("</think>" <= (thinking + "</think>" + text)[i..])
    ensures SplitReasoningText(blanks + ("<think>" + (thinking + "</think>" + text))) == Some((thinking, text))
  {
    var inner := thinking + "</think>" + text;
    TrimmedBehind(blanks, "<think>" + inner);
    assert ("<think>" + inner)[7..] == inner;
    FindFirst(thinking, "</think>", text);
    assert inner[..|thinking|] == thinking && inner[|thinking| + 8..] == text;
  }
}
