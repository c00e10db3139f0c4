/** The completion's text as a fallback behind a reasoning parser
    (unigateway-protocol/src/responses/anthropic_stream.rs:135-153): it is taken whenever no index was
    used, which includes streams whose whole content the parser still holds back. */
module TranslationFallback {
  import opened Common
  import opened Strings
  import opened AnthropicEvents
  import opened AnthropicStream
  import opened TranslationTheorems
  import opened TranslationContent
  import R = ReasoningText

  /** Blanks, which a tag may stand behind. */
  predicate Blank(s: string) { forall c <- s :: IsWhitespace(c) }

  lemma {:induction false} BlanksInFront(text: string) returns (blanks: string)
    ensures Blank(blanks) && text == blanks + TrimStart(text)
  {
    blanks := "";
    if text != "" && IsWhitespace(text[0]) {
      var rest := BlanksInFront(text[1..]);
      blanks := [text[0]] + rest;
      assert text == [text[0]] + text[1..];
    }
  }

  lemma NoTagWithoutSlash(text: string)
    requires '/' !in text
    ensures R.Find(text, R.CLOSE_TAG) == None
  {
    forall j: nat | j <= |text| ensures !(R.CLOSE_TAG <= text[j..]) {
      var tail := text[j..];
      assert |tail| > 1 ==> tail[1] in text;
    }
    R.FindNowhere(text, R.CLOSE_TAG);
  }

  /** No closing tag begins inside the second copy ... */
  lemma NotInside(blanks: string, rest: string, m: nat)
    requires Blank(blanks) && R.Find(rest, R.CLOSE_TAG) == None
    requires m <= |blanks + R.OPEN_TAG + rest|
    ensures !(R.CLOSE_TAG <= (blanks + R.OPEN_TAG + rest)[m..])
  {
    var b := |blanks|;
    var tail := (blanks + R.OPEN_TAG + rest)[m..];
    if m + 1 < b {
      assert tail[1] == blanks[m + 1] && tail[1] in blanks;
    } else if m + 1 < b + 7 {
      assert tail[1] == R.OPEN_TAG[m + 1 - b] && tail[1] in R.OPEN_TAG;
    } else if m == b + 6 {
      assert tail[0] == R.OPEN_TAG[6] == '>';
    } else {
      R.FindSound(rest, R.CLOSE_TAG);
      assert tail == rest[m - b - 7..];
    }
  }

  /** ... nor across the seam, since the second copy begins with a blank or `<`. */
  lemma NotAcross(rest: string, again: string, j: nat)
    requires j < |rest| < j + 8
    requires again != "" && (again[0] == '<' || IsWhitespace(again[0]))
    ensures !(R.CLOSE_TAG <= (rest + again)[j..])
  {
    var tail := (rest + again)[j..];
    assert tail[|rest| - j] == again[0];
    assert R.CLOSE_TAG[|rest| - j] in "/think>";
  }

  /** Behind an open tag that is not closed, the same text once more closes nothing either. */
  lemma NotClosedAt(blanks: string, rest: string, j: nat)
    requires Blank(blanks) && R.Find(rest, R.CLOSE_TAG) == None
    requires j <= |rest + (blanks + R.OPEN_TAG + rest)|
    ensures !(R.CLOSE_TAG <= (rest + (blanks + R.OPEN_TAG + rest))[j..])
  {
    var again := blanks + R.OPEN_TAG + rest;
    var tail := (rest + again)[j..];
    if j + 8 <= |rest| {
      R.FindSound(rest, R.CLOSE_TAG);
      assert tail[..8] == rest[j..][..8];
    } else if j < |rest| {
      assert blanks != "" ==> blanks[0] in blanks;
      NotAcross(rest, again, j);
    } else {
      assert tail == again[j - |rest|..];
      NotInside(blanks, rest, j - |rest|);
    }
  }

  lemma NotClosedTwice(blanks: string, rest: string)
    requires Blank(blanks) && R.Find(rest, R.CLOSE_TAG) == None
    ensures R.Find(rest + (blanks + R.OPEN_TAG + rest), R.CLOSE_TAG) == None
  {
    var whole := rest + (blanks + R.OPEN_TAG + rest);
    forall j: nat | j <= |whole| ensures !(R.CLOSE_TAG <= whole[j..]) {
      NotClosedAt(blanks, rest, j);
    }
    R.FindNowhere(whole, R.CLOSE_TAG);
  }

  /** Text that the parser holds back without a complete tag has none when it comes twice. */
  lemma HeldTwice(text: string)
    requires R.HeldBack(text) && R.SplitReasoningText(text).None?
    ensures R.SplitReasoningText(text + text).None?
    ensures text != "" ==> |R.Unsplit(text + text)| > |R.Unsplit(text)|
  {
    if R.OPEN_TAG <= TrimStart(text) {
      OpenTwice(text);
    } else {
      UndecidedTwice(text);
    }
    if text != "" {
      LongerTwice(text);
    }
  }

  lemma OpenTwice(text: string)
    requires R.OPEN_TAG <= TrimStart(text) && R.SplitReasoningText(text).None?
    ensures R.SplitReasoningText(text + text).None?
  {
    var blanks := BlanksInFront(text);
    var rest := TrimStart(text)[|R.OPEN_TAG|..];
    assert TrimStart(text) == R.OPEN_TAG + rest;
    Assoc(blanks, R.OPEN_TAG, rest);
    SplitBehind(text, rest);
    NotClosedTwice(blanks, rest);
    R.TrimAppend(text, text);
    Assoc(R.OPEN_TAG, rest, text);
    SplitBehind(text + text, rest + text);
  }

  /** Behind the open tag only the closing tag matters. */
  lemma SplitBehind(text: string, rest: string)
    requires TrimStart(text) == R.OPEN_TAG + rest
    ensures R.SplitReasoningText(text).None? <==> R.Find(rest, R.CLOSE_TAG) == None
  {
    assert TrimStart(text)[|R.OPEN_TAG|..] == rest;
  }

  lemma UndecidedTwice(text: string)
    requires TrimStart(text) <= R.OPEN_TAG
    ensures R.SplitReasoningText(text + text).None?
  {
    var blanks := BlanksInFront(text);
    R.TrimAppend(text, text);
    var both := TrimStart(text + text);
    if R.OPEN_TAG <= both {
      var rest := both[|R.OPEN_TAG|..];
      forall c | c in rest ensures c != '/' {
        assert c in both;
        NoSlash(blanks, TrimStart(text), both, c);
      }
      NoTagWithoutSlash(rest);
    }
  }

  lemma LongerTwice(text: string)
    requires text != ""
    requires TrimStart(text) <= R.OPEN_TAG || R.OPEN_TAG <= TrimStart(text)
    ensures |R.Unsplit(text + text)| > |R.Unsplit(text)|
  {
    R.TrimAppend(text, text);
    R.TrimShrinks(text);
    assert R.OPEN_TAG < TrimStart(text) ==> R.OPEN_TAG < TrimStart(text) + text;
  }

  lemma NoSlash(blanks: string, trimmed: string, both: string, c: char)
    requires Blank(blanks) && trimmed <= R.OPEN_TAG
    requires both == "" || both == trimmed + (blanks + trimmed)
    requires c in both
    ensures c != '/'
  {
    assert c in trimmed || c in blanks;
    assert c in trimmed ==> c in R.OPEN_TAG;
  }

  /** An empty tag held back, and then the same again: the second one is text. */
  lemma EmptyTagTwice(text: string)
    requires R.SplitReasoningText(text) == Some(("", ""))
    ensures R.SplitReasoningText(text + text) == Some(("", text))
  {
    R.TrimAppend(text, text);
    var rest := TrimStart(text)[|R.OPEN_TAG|..];
    R.FindSound(rest, R.CLOSE_TAG);
    assert rest == R.CLOSE_TAG;
    assert (TrimStart(text) + text)[|R.OPEN_TAG|..] == rest + text;
    assert R.CLOSE_TAG <= rest + text;
    assert (rest + text)[|R.CLOSE_TAG|..] == text;
  }

  /** The text a client reads when the completion's text is all of the content, and when there is none. */
  function WithFallback(policy: ThinkingPolicy, id: string, model: string, chunks: seq<Chunk>): seq<Event> {
    Translation(NewTranslator(true, policy), id, model, chunks, Some(AllContent(chunks)))
  }

  function WithoutFallback(policy: ThinkingPolicy, id: string, model: string, chunks: seq<Chunk>): seq<Event> {
    Translation(NewTranslator(true, policy), id, model, chunks, None)
  }

  /** A completion whose text is the content itself changes nothing for the client if and only if the
      chunks gave something away, or had no content. In the other case, content that was held back,
      the client reads more than was sent: what the content comes to when it comes twice. */
  lemma FallbackDoublesIff(policy: ThinkingPolicy, id: string, model: string, chunks: seq<Chunk>)
    ensures var full, bare := WithFallback(policy, id, model, chunks), WithoutFallback(policy, id, model, chunks);
            var held := Unsaid(true, policy, chunks) && AllContent(chunks) != "";
            && (TextSent(full) == TextSent(bare) && ThinkingSent(full) == ThinkingSent(bare) <==> !held)
            && (held ==> |TextSent(full)| > |TextSent(bare)|)
            && (held ==> TextSent(full) == Spoken(policy, AllContent(chunks) + AllContent(chunks), ("", "")).0)
  {
    var content := AllContent(chunks);
    ParsedTranslationSays(policy, id, model, chunks, Some(content));
    ParsedTranslationSays(policy, id, model, chunks, None);
    assert content + "" == content;
    if Unsaid(true, policy, chunks) && content != "" {
      DoubledSpeech(policy, content, ReasoningAround(chunks));
    }
  }

  lemma DoubledSpeech(policy: ThinkingPolicy, content: string, around: (string, string))
    requires R.HeldBack(content) && content != ""
    ensures |Spoken(policy, content + content, around).0| > |Spoken(policy, content, around).0|
    ensures Spoken(policy, content + content, around).0 == Spoken(policy, content + content, ("", "")).0
  {
    if R.SplitReasoningText(content).Some? {
      EmptyTagTwice(content);
    } else {
      HeldTwice(content);
    }
  }

  /** `<think>abc` is held back, and twice in a row it is read as it is. */
  lemma UnclosedTag(content: string)
    requires content == "<think>abc"
    ensures R.HeldBack(content)
    ensures Spoken(OmitThinking, content + content, ("", "")).0 == content + content
  {
    assert content[|R.OPEN_TAG|..] == "abc";
    NoTagWithoutSlash("abc");
    assert R.SplitReasoningText(content) == None;
    HeldTwice(content);
    assert TrimStart(content + content) == content + content;
  }

  /** A tag that is opened and never closed, with the same text in the completion, is read twice. */
  lemma UnclosedTagIsReadTwice(id: string, model: string, content: string)
    requires content == "<think>abc"
    ensures TextSent(WithFallback(OmitThinking, id, model, [Chunk(None, Absent, Absent, Some(content), [])]))
            == content + content
  {
    var chunk := Chunk(None, Absent, Absent, Some(content), []);
    assert [chunk][..0] == [];
    ContentMore([chunk]);
    assert "" + content == content;
    assert AllDeltas([chunk]) == AllDeltas([chunk][..0]) + AddressAll([]) == [];
    UnclosedTag(content);
    FallbackDoublesIff(OmitThinking, id, model, [chunk]);
  }
}
