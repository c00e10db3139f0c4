/** From Anthropic to OpenAI and back: which conversations survive, and what becomes of them. */
module ConversionTheorems {
  import opened Common
  import opened JsonStrings
  import opened ToolCalls
  import opened Conversion

  /** There and back; the way back also lists system texts. */
  function Back(codec: Codec,
                ms: seq<AnthropicMessage>): Result<(seq<string>, seq<AnthropicMessage>), ConversionError> {
    match AllToOpenAi(codec, ms)
    case Err(error) => Err(error)
    case Ok(os) => AllToAnthropic(codec, os)
  }

  // ----- the normal form -----

  /** Blocks with the role they are said in. */
  function Tagged(role: string, blocks: seq<Block>): seq<(string, Block)> {
    if blocks == [] then []
    else Tagged(role, blocks[..|blocks| - 1]) + [(role, blocks[|blocks| - 1])]
  }

  /** Everything said in a conversation, in order. */
  function Flat(ms: seq<AnthropicMessage>): seq<(string, Block)> {
    if ms == [] then []
    else
      var last := ms[|ms| - 1];
      Flat(ms[..|ms| - 1]) + Tagged(last.role.GetOr("user"), AnthropicBlocks(last.content))
  }

  /** What a text or image comes back as; an empty text, and any other block, as nothing. */
  function Returned(block: Block): seq<Block> {
    match block
    case Text(text) => if text == "" then [] else [Text(text)]
    case InputText(text) => if text == "" then [] else [Text(text)]
    case ImageUrl(fileId, reference) =>
      (match ImageSource(fileId, reference)
       case Ok(source) => [Image(source)]
       case Err(_) => [])
    case _ => []
  }

  /** The texts and images of a message, as they come back. */
  function Shown(blocks: seq<Block>): seq<Block> {
    if blocks == [] then [] else Shown(blocks[..|blocks| - 1]) + Returned(blocks[|blocks| - 1])
  }

  /** The tool uses, whose inputs are read as `read` says. */
  function Uses(blocks: seq<Block>, read: Json -> Json): seq<Block> {
    if blocks == [] then []
    else
      var last := blocks[|blocks| - 1];
      Uses(blocks[..|blocks| - 1], read) + if last.ToolUse? then [last.(input := read(last.input))] else []
  }

  function SpokenOne(block: Block): seq<Block> { if block.ToolResult? then [block] else Returned(block) }

  /** The same with the tool results in their places. */
  function Spoken(blocks: seq<Block>): seq<Block> {
    if blocks == [] then [] else Spoken(blocks[..|blocks| - 1]) + SpokenOne(blocks[|blocks| - 1])
  }

  /** What is left of a message: thinking and empty texts go, images become Anthropic's, and inside an
      assistant message texts and images move before the tool uses, either in their order. */
  function Normal(m: AnthropicMessage, read: Json -> Json): seq<(string, Block)> {
    var role, blocks := m.role.GetOr("user"), AnthropicBlocks(m.content);
    Tagged(role, if role == "assistant" then Shown(blocks) + Uses(blocks, read) else Spoken(blocks))
  }

  function NormalAll(ms: seq<AnthropicMessage>, read: Json -> Json): seq<(string, Block)> {
    if ms == [] then [] else NormalAll(ms[..|ms| - 1], read) + Normal(ms[|ms| - 1], read)
  }

  /** A tool input as it was. */
  const SAME: Json -> Json := v => v

  /** A tool input printed as arguments and read again. */
  function Reread(codec: Codec): Json -> Json { v => ArgumentsToInput(codec, codec.print_(v)) }

  predicate UsualRole(m: AnthropicMessage) {
    m.role.GetOr("user") == "user" || m.role.GetOr("user") == "assistant"
  }

  /** The blocks an assistant, or a user, is expected to say. */
  predicate UsualBlock(role: string, block: Block) {
    match block
    case Text(_) => true
    case InputText(_) => true
    case ImageUrl(fileId, reference) => fileId.Some? || reference.Some?
    case Thinking(_, _) => role == "assistant"
    case ToolUse(id, name, _) => role == "assistant" && id.Some? && name.Some?
    case ToolResult(id, _) => role == "user" && id.Some?
    case Image(_) => false
    case Other(_) => false
  }

  predicate UsualBlocks(role: string, blocks: seq<Block>) {
    blocks == [] || (UsualBlocks(role, blocks[..|blocks| - 1]) && UsualBlock(role, blocks[|blocks| - 1]))
  }

  predicate Usual(m: AnthropicMessage) { UsualBlocks(m.role.GetOr("user"), AnthropicBlocks(m.content)) }

  // ----- tool inputs -----

  /** The string is opened when it is read: it is JSON itself, or what the repair of arguments makes of
      it is. */
  predicate Opened(codec: Codec, s: string) {
    codec.parse(s).Some? || codec.parse(Settle(s, "")).Some?
  }

  /** The repair comes to the same whatever it falls back to, unless it falls back. */
  lemma {:induction false} SettleEither(s: string, p: string, q: string)
    ensures (Settle(s, p) == p && Settle(s, q) == q) || (Settle(s, p) == Settle(s, q) && |Settle(s, p)| <= |s|)
    decreases |s|
  {
    StripShortens(s);
    var stripped := StripEmptyObjects(s);
    if stripped != s {
      SettleEither(stripped, p, q);
    } else if Quoted(s) && DecodeLiteral(s).Some? {
      SettleEither(DecodeLiteral(s).value, p, q);
    }
  }

  lemma {:induction false} UnwrappedShorter(codec: Codec, v: Json)
    ensures Unwrapped(codec, v).JString? ==> v.JString? && |Unwrapped(codec, v).text| <= |v.text|
    ensures v.JString? && codec.parse(v.text).Some? ==> Unwrapped(codec, v) != v
    decreases if v.JString? then |v.text| + 1 else 0
  {
    if v.JString? && codec.parse(v.text).Some? {
      UnwrappedShorter(codec, codec.parse(v.text).value);
    }
  }

  lemma LiteralNormalized(s: string)
    ensures Normalize(EncodeLiteral(s), EncodeLiteral(s)) == Settle(s, EncodeLiteral(s))
    ensures |s| + 2 <= |EncodeLiteral(s)|
  {
    LiteralComesBack(s);
  }

  lemma StringComesBackIff(codec: Codec, s: string)
    requires Faithful(codec)
    ensures Reread(codec)(JString(s)) == JString(s) <==> !Opened(codec, s)
  {
    var raw := EncodeLiteral(s);
    assert codec.print_(JString(s)) == raw && codec.parse(raw) == Some(JString(s));
    LiteralNormalized(s);
    SettleEither(s, raw, "");
    UnwrappedShorter(codec, JString(s));
    var normalized := codec.parse(Settle(s, raw));
    if Settle(s, raw) == Settle(s, "") && normalized.Some? {
      UnwrappedShorter(codec, normalized.value);
    }
  }

  /** A tool input survives being printed as arguments and read again exactly unless it is a string
      that is opened. */
  lemma InputComesBackIff(codec: Codec, v: Json)
    requires Faithful(codec)
    ensures Reread(codec)(v) == v <==> v.JOther? || !Opened(codec, v.text)
  {
    if v.JString? {
      StringComesBackIff(codec, v.text);
    }
  }

  // ----- assistant messages -----

  lemma MappedIsReturned(block: Block)
    ensures MappedBlock(block).Ok? <==> UsualBlock("user", block) && !block.ToolResult?
    ensures MappedBlock(block).Ok? ==> MappedBlock(block).value == Returned(block)
  {}

  lemma OneMoreBlock(blocks: seq<Block>, block: Block)
    ensures MappedBlocks(blocks + [block]) ==
            match MappedBlocks(blocks)
            case Err(error) => Err(error)
            case Ok(front) => match MappedBlock(block) case Err(error) => Err(error) case Ok(more) => Ok(front + more)
  {
    assert (blocks + [block])[..|blocks|] == blocks;
  }

  lemma OneMoreCall(codec: Codec, calls: seq<ToolCall>, call: ToolCall)
    ensures MappedCalls(codec, calls + [call]) == MappedCalls(codec, calls) + [ToolUseBlock(codec, call)]
  {
    assert (calls + [call])[..|calls|] == calls;
  }

  /** The sorted parts can be converted back. */
  predicate SortsBack(codec: Codec, blocks: seq<Block>) {
    SortBlocks(codec, blocks).Ok? && MappedBlocks(SortBlocks(codec, blocks).value.content).Ok?
  }

  lemma {:induction false} SortsBackIff(codec: Codec, blocks: seq<Block>)
    ensures SortsBack(codec, blocks) <==> UsualBlocks("assistant", blocks)
  {
    if blocks != [] {
      var front, last := blocks[..|blocks| - 1], blocks[|blocks| - 1];
      SortsBackIff(codec, front);
      if SortBlocks(codec, front).Ok? {
        OneMoreBlock(SortBlocks(codec, front).value.content, last);
      }
    }
  }

  /** Texts and images on the one hand, tool uses on the other. */
  predicate InParts(codec: Codec, blocks: seq<Block>) {
    && SortBlocks(codec, blocks).Ok?
    && MappedBlocks(SortBlocks(codec, blocks).value.content) == Ok(Shown(blocks))
    && MappedCalls(codec, SortBlocks(codec, blocks).value.toolCalls) == Uses(blocks, Reread(codec))
  }

  lemma OneUseMore(codec: Codec, front: seq<Block>, last: Block)
    requires InParts(codec, front) && UsualBlock("assistant", last) && last.ToolUse?
    ensures InParts(codec, front + [last])
  {
    var blocks := front + [last];
    assert blocks[..|blocks| - 1] == front;
    OneMoreCall(codec, SortBlocks(codec, front).value.toolCalls,
                ToolCall(last.id, last.name, codec.print_(last.input)));
    assert Shown(front) + [] == Shown(front);
  }

  lemma OneShownMore(codec: Codec, front: seq<Block>, last: Block)
    requires InParts(codec, front) && UsualBlock("assistant", last) && !last.ToolUse?
    ensures InParts(codec, front + [last])
  {
    var blocks := front + [last];
    assert blocks[..|blocks| - 1] == front;
    assert Uses(front, Reread(codec)) + [] == Uses(front, Reread(codec));
    if last.Thinking? {
      assert Shown(front) + [] == Shown(front);
    } else {
      MappedIsReturned(last);
      OneMoreBlock(SortBlocks(codec, front).value.content, last);
    }
  }

  lemma {:induction false} SortedParts(codec: Codec, blocks: seq<Block>)
    requires UsualBlocks("assistant", blocks)
    ensures InParts(codec, blocks)
  {
    if blocks != [] {
      var front, last := blocks[..|blocks| - 1], blocks[|blocks| - 1];
      assert blocks == front + [last];
      SortedParts(codec, front);
      if last.ToolUse? {
        OneUseMore(codec, front, last);
      } else {
        OneShownMore(codec, front, last);
      }
    }
  }

  // ----- what messages say -----

  lemma {:induction false} TaggedConcat(role: string, a: seq<Block>, b: seq<Block>)
    ensures Tagged(role, a + b) == Tagged(role, a) + Tagged(role, b)
  {
    if b == [] {
      assert a + b == a;
    } else {
      TaggedConcat(role, a, b[..|b| - 1]);
      assert (a + b)[..|a + b| - 1] == a + b[..|b| - 1];
    }
  }

  /** What the messages say once they are converted back, if they can be; none of them may be a
      system message. */
  function Heard(codec: Codec, os: seq<OpenAiMessage>): Option<seq<(string, Block)>> {
    match AllToAnthropic(codec, os)
    case Err(_) => None
    case Ok((system, messages)) => if system == [] then Some(Flat(messages)) else None
  }

  function HeardOne(codec: Codec, o: OpenAiMessage): Option<seq<(string, Block)>> {
    match ToAnthropic(codec, o)
    case Err(_) => None
    case Ok(m) => Some(Tagged(m.role.GetOr("user"), AnthropicBlocks(m.content)))
  }

  predicate NotSystem(o: OpenAiMessage) { o.Chat? ==> o.role != "system" }

  function Both<T>(a: Option<seq<T>>, b: Option<seq<T>>): Option<seq<T>> {
    if a.Some? && b.Some? then Some(a.value + b.value) else None
  }

  lemma BothAssoc<T>(a: Option<seq<T>>, b: Option<seq<T>>, c: Option<seq<T>>)
    ensures Both(Both(a, b), c) == Both(a, Both(b, c))
    ensures Both(a, Some([])) == a && Both(Some([]), a) == a
  {
    if a.Some? && b.Some? && c.Some? {
      Assoc(a.value, b.value, c.value);
    }
    if a.Some? {
      assert a.value + [] == a.value && [] + a.value == a.value;
    }
  }

  lemma HeardMore(codec: Codec, os: seq<OpenAiMessage>, o: OpenAiMessage)
    requires NotSystem(o)
    ensures Heard(codec, os + [o]) == Both(Heard(codec, os), HeardOne(codec, o))
  {}

  lemma HeardConcatMore(codec: Codec, a: seq<OpenAiMessage>, front: seq<OpenAiMessage>, o: OpenAiMessage)
    requires NotSystem(o)
    requires Heard(codec, a + front) == Both(Heard(codec, a), Heard(codec, front))
    ensures Heard(codec, a + (front + [o])) == Both(Heard(codec, a), Heard(codec, front + [o]))
  {
    HeardMore(codec, a + front, o);
    HeardMore(codec, front, o);
    Assoc(a, front, [o]);
    BothAssoc(Heard(codec, a), Heard(codec, front), HeardOne(codec, o));
  }

  lemma HeardNothing(codec: Codec, a: seq<OpenAiMessage>)
    ensures Heard(codec, []) == Some([])
    ensures Heard(codec, a) == Both(Heard(codec, a), Heard(codec, []))
  {
    BothAssoc(Heard(codec, a), None, None);
  }

  lemma {:induction false} HeardConcat(codec: Codec, a: seq<OpenAiMessage>, b: seq<OpenAiMessage>)
    requires forall o <- b :: NotSystem(o)
    ensures Heard(codec, a + b) == Both(Heard(codec, a), Heard(codec, b))
  {
    if b == [] {
      assert a + b == a;
      HeardNothing(codec, a);
    } else {
      var front, o := b[..|b| - 1], b[|b| - 1];
      assert front + [o] == b;
      HeardConcat(codec, a, front);
      HeardConcatMore(codec, a, front, o);
    }
  }

  // ----- user messages -----

  function Buffered(buffer: seq<Block>): Option<seq<(string, Block)>> {
    match MappedBlocks(buffer)
    case Err(_) => None
    case Ok(mapped) => Some(Tagged("user", mapped))
  }

  /** Flushing changes nothing about what is said. */
  lemma FlushSays(codec: Codec, os: seq<OpenAiMessage>, buffer: seq<Block>)
    ensures Heard(codec, os + Flushed("user", buffer)) == Both(Heard(codec, os), Buffered(buffer))
  {
    if buffer == [] {
      assert os + [] == os;
      BothAssoc(Heard(codec, os), None, None);
    } else {
      var o := Chat("user", Blocks(buffer), [], None);
      HeardMore(codec, os, o);
      if MappedBlocks(buffer).Ok? {
        var mapped := MappedBlocks(buffer).value;
        assert mapped + MappedCalls(codec, []) == mapped;
      }
    }
  }

  function SaidBlock(block: Block): Option<seq<(string, Block)>> {
    if UsualBlock("user", block) then Some(Tagged("user", SpokenOne(block))) else None
  }

  lemma BufferSays(buffer: seq<Block>, block: Block)
    requires !block.ToolResult?
    ensures Buffered(buffer + [block]) == Both(Buffered(buffer), SaidBlock(block))
  {
    OneMoreBlock(buffer, block);
    MappedIsReturned(block);
    if MappedBlocks(buffer).Ok? && MappedBlock(block).Ok? {
      TaggedConcat("user", MappedBlocks(buffer).value, Returned(block));
    }
  }

  lemma ToolResultSays(codec: Codec, id: string, content: Json)
    ensures HeardOne(codec, ToolMessage(Some(id), content)) == SaidBlock(ToolResult(Some(id), content))
  {}

  /** What a user's blocks come to. */
  function SplitSays(codec: Codec, blocks: seq<Block>): Option<seq<(string, Block)>> {
    match SplitBlocks("user", blocks)
    case Err(_) => None
    case Ok((os, buffer)) => Both(Heard(codec, os), Buffered(buffer))
  }

  lemma SplitSaysMore(codec: Codec, blocks: seq<Block>, block: Block)
    ensures SplitSays(codec, blocks + [block]) == Both(SplitSays(codec, blocks), SaidBlock(block))
  {
    assert (blocks + [block])[..|blocks|] == blocks;
    if SplitBlocks("user", blocks).Ok? {
      var (os, buffer) := SplitBlocks("user", blocks).value;
      if !block.ToolResult? {
        BufferSays(buffer, block);
        BothAssoc(Heard(codec, os), Buffered(buffer), SaidBlock(block));
      } else if block.toolUseId.Some? {
        var flushed := os + Flushed("user", buffer);
        FlushSays(codec, os, buffer);
        HeardMore(codec, flushed, ToolMessage(block.toolUseId, block.content));
        ToolResultSays(codec, block.toolUseId.value, block.content);
        BothAssoc(Heard(codec, flushed + [ToolMessage(block.toolUseId, block.content)]), None, None);
        assert Buffered([]) == Some([]);
      }
    }
  }

  lemma {:induction false} UserBlocksSay(codec: Codec, blocks: seq<Block>)
    ensures SplitSays(codec, blocks) == if UsualBlocks("user", blocks)
            then Some(Tagged("user", Spoken(blocks))) else None
  {
    if blocks == [] {
      assert Heard(codec, []) == Some([]) && Buffered([]) == Some([]);
      BothAssoc(Some(Tagged("user", [])), None, None);
    } else {
      var front, last := blocks[..|blocks| - 1], blocks[|blocks| - 1];
      assert blocks == front + [last];
      UserBlocksSay(codec, front);
      SplitSaysMore(codec, front, last);
      TaggedConcat("user", Spoken(front), SpokenOne(last));
    }
  }

  // ----- one message, and all -----

  /** What a message comes to on the way there and back. */
  function MessageSays(codec: Codec, m: AnthropicMessage): Option<seq<(string, Block)>> {
    match ToOpenAi(codec, m)
    case Err(_) => None
    case Ok(os) => Heard(codec, os)
  }

  lemma OneMessageSays(codec: Codec, o: OpenAiMessage)
    requires NotSystem(o)
    ensures Heard(codec, [o]) == HeardOne(codec, o)
  {
    HeardMore(codec, [], o);
    assert [] + [o] == [o];
    assert Heard(codec, []) == Some([]);
    BothAssoc(HeardOne(codec, o), None, None);
  }

  lemma AssistantSays(codec: Codec, m: AnthropicMessage)
    requires m.role == Some("assistant")
    ensures MessageSays(codec, m).Some? <==> Usual(m)
    ensures Usual(m) ==> MessageSays(codec, m) == Some(Normal(m, Reread(codec)))
  {
    var blocks := AnthropicBlocks(m.content);
    SortsBackIff(codec, blocks);
    if SortBlocks(codec, blocks).Ok? {
      var s := SortBlocks(codec, blocks).value;
      OneMessageSays(codec, AssistantMessage(s));
      if UsualBlocks("assistant", blocks) {
        SortedParts(codec, blocks);
      }
    }
  }

  lemma OneText(text: string)
    ensures Spoken([Text(text)]) == Returned(Text(text)) && UsualBlocks("user", [Text(text)])
  {
    assert [Text(text)][..0] == [];
    assert UsualBlocks("user", [Text(text)][..0]);
    assert Spoken([Text(text)]) == [] + Returned(Text(text)) == Returned(Text(text));
  }

  lemma PlainSays(codec: Codec, text: string)
    ensures HeardOne(codec, Chat("user", Plaintext(text), [], None)) == Some(Tagged("user", Spoken([Text(text)])))
    ensures UsualBlocks("user", [Text(text)])
  {
    OneText(text);
    assert Returned(Text(text)) + MappedCalls(codec, []) == Returned(Text(text));
  }

  lemma UserSays(codec: Codec, m: AnthropicMessage)
    requires m.role.GetOr("user") == "user"
    ensures MessageSays(codec, m) == if Usual(m) then Some(Normal(m, Reread(codec))) else None
  {
    if m.content.Plaintext? {
      OneMessageSays(codec, Chat("user", m.content, [], None));
      PlainSays(codec, m.content.text);
    } else {
      var blocks := AnthropicBlocks(m.content);
      UserBlocksSay(codec, blocks);
      if SplitBlocks("user", blocks).Ok? {
        var (os, buffer) := SplitBlocks("user", blocks).value;
        FlushSays(codec, os, buffer);
      }
    }
  }

  // ----- conversations -----

  predicate AllUsual(ms: seq<AnthropicMessage>) {
    ms == [] || (AllUsual(ms[..|ms| - 1]) && Usual(ms[|ms| - 1]))
  }

  ghost predicate Ordinary(ms: seq<AnthropicMessage>) {
    forall m <- ms :: UsualRole(m)
  }

  lemma {:induction false} SplitRoles(blocks: seq<Block>)
    requires SplitBlocks("user", blocks).Ok?
    ensures forall o <- SplitBlocks("user", blocks).value.0 :: o.Chat? ==> o.role == "user"
  {
    if blocks != [] {
      SplitRoles(blocks[..|blocks| - 1]);
    }
  }

  lemma NoSystem(codec: Codec, m: AnthropicMessage)
    requires UsualRole(m) && ToOpenAi(codec, m).Ok?
    ensures forall o <- ToOpenAi(codec, m).value :: NotSystem(o)
  {
    if m.role.GetOr("user") == "user" && !m.content.Plaintext? {
      SplitRoles(AnthropicBlocks(m.content));
    }
  }

  /** What a conversation comes to. */
  function AllSays(codec: Codec, ms: seq<AnthropicMessage>): Option<seq<(string, Block)>> {
    match AllToOpenAi(codec, ms)
    case Err(_) => None
    case Ok(os) => Heard(codec, os)
  }

  lemma AllSaysMore(codec: Codec, ms: seq<AnthropicMessage>, m: AnthropicMessage)
    requires UsualRole(m)
    ensures AllSays(codec, ms + [m]) == Both(AllSays(codec, ms), MessageSays(codec, m))
  {
    assert (ms + [m])[..|ms|] == ms;
    if AllToOpenAi(codec, ms).Ok? && ToOpenAi(codec, m).Ok? {
      NoSystem(codec, m);
      HeardConcat(codec, AllToOpenAi(codec, ms).value, ToOpenAi(codec, m).value);
    }
  }

  lemma {:induction false} ConversationSays(codec: Codec, ms: seq<AnthropicMessage>)
    requires Ordinary(ms)
    ensures AllSays(codec, ms).Some? <==> AllUsual(ms)
    ensures AllUsual(ms) ==> AllSays(codec, ms) == Some(NormalAll(ms, Reread(codec)))
  {
    if ms == [] {
      assert Heard(codec, []) == Some([]);
    } else {
      var front, m := ms[..|ms| - 1], ms[|ms| - 1];
      assert ms == front + [m] && m in ms;
      ConversationSays(codec, front);
      AllSaysMore(codec, front, m);
      if m.role == Some("assistant") {
        AssistantSays(codec, m);
      } else {
        UserSays(codec, m);
      }
    }
  }

  lemma {:induction false} NoSystemTexts(codec: Codec, os: seq<OpenAiMessage>)
    requires forall o <- os :: NotSystem(o)
    ensures AllToAnthropic(codec, os).Ok? ==> AllToAnthropic(codec, os).value.0 == []
  {
    if os != [] {
      assert NotSystem(os[|os| - 1]) by { assert os[|os| - 1] in os; }
      NoSystemTexts(codec, os[..|os| - 1]);
    }
  }

  lemma {:induction false} AllNoSystem(codec: Codec, ms: seq<AnthropicMessage>)
    requires Ordinary(ms) && AllToOpenAi(codec, ms).Ok?
    ensures forall o <- AllToOpenAi(codec, ms).value :: NotSystem(o)
  {
    if ms != [] {
      assert ms[|ms| - 1] in ms;
      AllNoSystem(codec, ms[..|ms| - 1]);
      NoSystem(codec, ms[|ms| - 1]);
    }
  }

  /** A conversation of user and assistant messages survives the way to OpenAI and back exactly when
      every block is one that its role usually says; no message ever turns into a system text. */
  lemma SurvivesIff(codec: Codec, ms: seq<AnthropicMessage>)
    requires Ordinary(ms)
    ensures Back(codec, ms).Ok? <==> AllUsual(ms)
    ensures Back(codec, ms).Ok? ==> Back(codec, ms).value.0 == []
  {
    ConversationSays(codec, ms);
    if AllToOpenAi(codec, ms).Ok? {
      AllNoSystem(codec, ms);
      NoSystemTexts(codec, AllToOpenAi(codec, ms).value);
    }
  }

  // ----- what changes -----

  /** The assistants' tool inputs are read as they were. */
  ghost predicate InputsKept(m: AnthropicMessage, read: Json -> Json) {
    m.role == Some("assistant") ==> forall b <- AnthropicBlocks(m.content) :: b.ToolUse? ==> read(b.input) == b.input
  }

  lemma {:induction false} UsesSameIff(blocks: seq<Block>, read: Json -> Json)
    ensures |Uses(blocks, read)| == |Uses(blocks, SAME)|
    ensures Uses(blocks, read) == Uses(blocks, SAME) <==>
            forall b <- blocks :: b.ToolUse? ==> read(b.input) == b.input
  {
    if blocks != [] {
      var front, last := blocks[..|blocks| - 1], blocks[|blocks| - 1];
      assert blocks == front + [last];
      UsesSameIff(front, read);
      if last.ToolUse? {
        AppendedSame(Uses(front, read), Uses(front, SAME), [last.(input := read(last.input))], [last]);
      } else {
        AppendedSame(Uses(front, read), Uses(front, SAME), [], []);
      }
    }
  }

  lemma AppendedSame<T>(a: seq<T>, b: seq<T>, c: seq<T>, d: seq<T>)
    requires |a| == |b|
    ensures a + c == b + d <==> a == b && c == d
  {
    if a + c == b + d {
      assert a == (a + c)[..|a|] && b == (b + d)[..|b|];
      assert c == (a + c)[|a|..] && d == (b + d)[|b|..];
    }
  }

  lemma {:induction false} TaggedSameIff(role: string, a: seq<Block>, b: seq<Block>)
    requires |a| == |b|
    ensures |Tagged(role, a)| == |a| && |Tagged(role, b)| == |b|
    ensures Tagged(role, a) == Tagged(role, b) <==> a == b
  {
    if a != [] {
      var x, y := a[..|a| - 1], b[..|b| - 1];
      assert a == x + [a[|a| - 1]] && b == y + [b[|b| - 1]];
      TaggedSameIff(role, x, y);
      AppendedSame(Tagged(role, x), Tagged(role, y), [(role, a[|a| - 1])], [(role, b[|b| - 1])]);
      AppendedSame(x, y, [a[|a| - 1]], [b[|b| - 1]]);
    }
  }

  lemma NormalSameIff(m: AnthropicMessage, read: Json -> Json)
    ensures |Normal(m, read)| == |Normal(m, SAME)|
    ensures Normal(m, read) == Normal(m, SAME) <==> InputsKept(m, read)
  {
    if m.role == Some("assistant") {
      var blocks := AnthropicBlocks(m.content);
      UsesSameIff(blocks, read);
      TaggedSameIff("assistant", Shown(blocks) + Uses(blocks, read), Shown(blocks) + Uses(blocks, SAME));
      AppendedSame(Shown(blocks), Shown(blocks), Uses(blocks, read), Uses(blocks, SAME));
    }
  }

  lemma {:induction false} NormalAllSameIff(ms: seq<AnthropicMessage>, read: Json -> Json)
    ensures |NormalAll(ms, read)| == |NormalAll(ms, SAME)|
    ensures NormalAll(ms, read) == NormalAll(ms, SAME) <==> forall m <- ms :: InputsKept(m, read)
  {
    if ms != [] {
      var front, last := ms[..|ms| - 1], ms[|ms| - 1];
      assert ms == front + [last];
      NormalAllSameIff(front, read);
      NormalSameIff(last, read);
      AppendedSame(NormalAll(front, read), NormalAll(front, SAME), Normal(last, read), Normal(last, SAME));
    }
  }

  /** An assistant uses a tool with a string that is opened when it is read. */
  ghost predicate UsesOpened(codec: Codec, m: AnthropicMessage) {
    m.role == Some("assistant") &&
    exists b <- AnthropicBlocks(m.content) :: b.ToolUse? && b.input.JString? && Opened(codec, b.input.text)
  }

  lemma InputsKeptIff(codec: Codec, m: AnthropicMessage)
    requires Faithful(codec)
    ensures InputsKept(m, Reread(codec)) <==> !UsesOpened(codec, m)
  {
    forall b | b in AnthropicBlocks(m.content) && b.ToolUse?
      ensures Reread(codec)(b.input) == b.input <==> b.input.JOther? || !Opened(codec, b.input.text)
    {
      InputComesBackIff(codec, b.input);
    }
  }

  /** A conversation that survives comes back in its normal form, tool inputs as they are read again. It
      says the same, that is the blocks in the roles and the order they had, but for thinking and empty
      texts, which are gone, for `input_text` and OpenAI's images, which have become texts and Anthropic's
      images, and for texts and images, which move before the tool uses of their assistant message,
      exactly unless an assistant uses a tool with a string that is opened. */
  lemma ThereAndBackKeepsTheConversation(codec: Codec, ms: seq<AnthropicMessage>)
    requires Faithful(codec) && Ordinary(ms) && AllUsual(ms)
    ensures Back(codec, ms).Ok?
    ensures Flat(Back(codec, ms).value.1) == NormalAll(ms, Reread(codec))
    ensures Flat(Back(codec, ms).value.1) == NormalAll(ms, SAME) <==> forall m <- ms :: !UsesOpened(codec, m)
  {
    ConversationSays(codec, ms);
    NormalAllSameIff(ms, Reread(codec));
    forall m | m in ms ensures InputsKept(m, Reread(codec)) <==> !UsesOpened(codec, m) {
      InputsKeptIff(codec, m);
    }
  }

  /** The string `{}1`, which is no JSON, comes back as the number 1. */
  lemma OpenedByRepair(codec: Codec, one: Json)
    requires Faithful(codec) && codec.parse("{}1") == None && codec.parse("1") == Some(one) && one.JOther?
    ensures Reread(codec)(JString("{}1")) == one
  {
    var s := "{}1";
    assert s[2..] == "1";
    LiteralNormalized(s);
    assert StripEmptyObjects(s) == StripEmptyObjects(s[2..]) == "1";
    assert codec.print_(JString(s)) == EncodeLiteral(s);
  }
}
