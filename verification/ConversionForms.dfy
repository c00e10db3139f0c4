/** What single messages become, told without the functions that convert them
    (unigateway-core/src/conversion/messages.rs:12-246, blocks.rs:243-571). */
module ConversionForms {
  import opened Common
  import opened Strings
  import opened ToolCalls
  import opened Conversion

  // ----- system messages -----

  predicate IsSystem(m: OpenAiMessage) { m.Chat? && m.role == "system" }

  function TextsIn(blocks: seq<Block>): seq<string> {
    if blocks == [] then []
    else
      match blocks[0]
      case Text(text) => [text] + TextsIn(blocks[1..])
      case InputText(text) => [text] + TextsIn(blocks[1..])
      case _ => TextsIn(blocks[1..])
  }

  /** The texts of all system messages, in order. */
  function SystemSaid(ms: seq<OpenAiMessage>): seq<string> {
    if ms == [] then []
    else
      SystemSaid(ms[..|ms| - 1]) +
      match ms[|ms| - 1]
      case Chat("system", Plaintext(text), _, _) => [text]
      case Chat("system", Blocks(blocks), _, _) => TextsIn(blocks)
      case _ => []
  }

  /** The other messages. */
  function Unsystematic(ms: seq<OpenAiMessage>): seq<OpenAiMessage> {
    if ms == [] then []
    else Unsystematic(ms[..|ms| - 1]) + if IsSystem(ms[|ms| - 1]) then [] else [ms[|ms| - 1]]
  }

  lemma {:induction false} TextsFromTheFront(blocks: seq<Block>)
    ensures TextsOf(blocks) == TextsIn(blocks)
  {
    if blocks != [] {
      TextsFromTheFront(blocks[..|blocks| - 1]);
      TextsMore(blocks[..|blocks| - 1], blocks[|blocks| - 1]);
      assert blocks == blocks[..|blocks| - 1] + [blocks[|blocks| - 1]];
    }
  }

  lemma {:induction false} TextsMore(front: seq<Block>, last: Block)
    ensures TextsIn(front + [last]) == TextsIn(front) + if last.Text? || last.InputText? then [last.text] else []
  {
    if front == [] {
      assert front + [last] == [last];
    } else {
      assert (front + [last])[1..] == front[1..] + [last];
      TextsMore(front[1..], last);
    }
  }

  lemma OneMessageMore(ms: seq<OpenAiMessage>, m: OpenAiMessage)
    ensures Unsystematic(ms + [m]) == Unsystematic(ms) + if IsSystem(m) then [] else [m]
  {
    assert (ms + [m])[..|ms|] == ms;
  }

  /** System messages give their texts, and leave the others as they would be without them. */
  ghost predicate Apart(codec: Codec, ms: seq<OpenAiMessage>) {
    var whole, others := AllToAnthropic(codec, ms), AllToAnthropic(codec, Unsystematic(ms));
    && (whole.Ok? <==> others.Ok? && forall m <- ms :: IsSystem(m) ==> !m.content.OddContent?)
    && (others.Ok? ==> others.value.0 == [])
    && (whole.Ok? ==> whole.value == (SystemSaid(ms), others.value.1))
  }

  lemma SystemMore(front: seq<OpenAiMessage>, m: OpenAiMessage)
    requires IsSystem(m)
    ensures SystemTexts(m.content).Ok? <==> !m.content.OddContent?
    ensures SystemTexts(m.content).Ok? ==> SystemSaid(front + [m]) == SystemSaid(front) + SystemTexts(m.content).value
  {
    assert (front + [m])[..|front|] == front;
    if m.content.Blocks? {
      TextsFromTheFront(m.content.blocks);
    }
  }

  lemma SystemStaysApart(codec: Codec, front: seq<OpenAiMessage>, m: OpenAiMessage)
    requires Apart(codec, front) && IsSystem(m)
    ensures Apart(codec, front + [m])
  {
    var ms := front + [m];
    assert ms[..|ms| - 1] == front;
    OneMessageMore(front, m);
    assert Unsystematic(ms) == Unsystematic(front);
    SystemMore(front, m);
    assert (forall x <- ms :: IsSystem(x) ==> !x.content.OddContent?) <==>
           (forall x <- front :: IsSystem(x) ==> !x.content.OddContent?) && !m.content.OddContent?;
  }

  lemma OtherStaysApart(codec: Codec, front: seq<OpenAiMessage>, m: OpenAiMessage)
    requires Apart(codec, front) && !IsSystem(m)
    ensures Apart(codec, front + [m])
  {
    var ms := front + [m];
    assert ms[..|ms| - 1] == front;
    OneMessageMore(front, m);
    assert Unsystematic(ms)[..|Unsystematic(ms)| - 1] == Unsystematic(front);
    assert SystemSaid(front) + [] == SystemSaid(front);
  }

  lemma {:induction false} SystemApart(codec: Codec, ms: seq<OpenAiMessage>)
    ensures Apart(codec, ms)
  {
    if ms != [] {
      var front, m := ms[..|ms| - 1], ms[|ms| - 1];
      assert ms == front + [m];
      SystemApart(codec, front);
      if IsSystem(m) {
        SystemStaysApart(codec, front, m);
      } else {
        OtherStaysApart(codec, front, m);
      }
    }
  }

  /** The system prompt is the one text that system messages hold, the list of all their texts if they hold
      several, and the given one, if any, if they hold none; the messages are those of the conversation
      without its system messages. */
  lemma SystemPromptTold(codec: Codec, ms: seq<OpenAiMessage>, fallback: Option<Json>)
    ensures var r, texts := AnthropicForm(codec, ms, fallback), SystemSaid(ms);
            var others := AnthropicForm(codec, Unsystematic(ms), None);
            && (r.Ok? <==> others.Ok? && forall m <- ms :: IsSystem(m) ==> !m.content.OddContent?)
            && (r.Ok? ==> r.value.1 == others.value.1 && others.value.0 == None)
            && (r.Ok? && |texts| == 1 ==> r.value.0 == Some(SystemText(texts[0])))
            && (r.Ok? && |texts| > 1 ==> r.value.0 == Some(SystemBlocks(texts)))
            && (r.Ok? && |texts| == 0 && fallback.Some? ==> r.value.0 == Some(Given(fallback.value)))
            && (r.Ok? && |texts| == 0 && fallback.None? ==> r.value.0 == None)
  {
    SystemApart(codec, ms);
  }

  // ----- images -----

  /** An image reference is a data URL exactly if it reads `data:`, a media type without a comma, `;base64,`
      and data, neither of them empty; any other reference is a URL. */
  lemma DataUrlIff(url: string, mediaType: string, data: string)
    ensures ReferenceSource(url) == Base64Source(mediaType, data) <==>
            && url == "data:" + mediaType + ";base64," + data
            && mediaType != "" && data != "" && ',' !in mediaType
  {
    if mediaType != "" && data != "" && ',' !in mediaType && url == "data:" + mediaType + ";base64," + data {
      DataUrlIsRead(url, mediaType, data);
    } else if ReferenceSource(url) == Base64Source(mediaType, data) {
      DataUrlIsWritten(url, mediaType, data);
    }
  }

  lemma DataUrlIsRead(url: string, mediaType: string, data: string)
    requires url == "data:" + mediaType + ";base64," + data && mediaType != "" && data != "" && ',' !in mediaType
    ensures ReferenceSource(url) == Base64Source(mediaType, data)
  {
    var payload := mediaType + ";base64," + data;
    var n := |mediaType| + 7;
    assert url[5..] == payload && url[..5] == "data:";
    assert payload[..n] == mediaType + ";base64" && payload[n] == ',' && payload[n + 1..] == data;
    IndexOfAt(payload, ',', n);
    assert payload[..n][|mediaType|..] == ";base64" && payload[..n][..|mediaType|] == mediaType;
  }

  lemma Suffixed(metadata: string, mark: string)
    requires |metadata| >= |mark| && metadata[|metadata| - |mark|..] == mark
    ensures metadata == metadata[..|metadata| - |mark|] + mark
  {}

  lemma Separated(payload: string, n: nat)
    requires n < |payload| && payload[n] == ','
    ensures payload == payload[..n] + "," + payload[n + 1..]
  {}

  lemma DataUrlIsWritten(url: string, mediaType: string, data: string)
    requires ParseDataUrl(url) == Some((mediaType, data))
    ensures url == "data:" + mediaType + ";base64," + data && mediaType != "" && data != "" && ',' !in mediaType
  {
    var payload := url[5..];
    var n := IndexOf(payload, ',');
    Separated(payload, n);
    Suffixed(payload[..n], ";base64");
    assert url == "data:" + payload;
    assert forall c <- mediaType :: c in payload[..n];
    GluedUrl(mediaType, data);
  }

  lemma GluedUrl(mediaType: string, data: string)
    ensures "data:" + ((mediaType + ";base64") + "," + data) == "data:" + mediaType + ";base64," + data
  {
    assert (mediaType + ";base64") + "," == mediaType + ";base64,";
  }

  /** Where an image comes from: its file id, else its reference, else nowhere. */
  lemma ImageTold(fileId: Option<string>, reference: Option<string>)
    ensures ImageSource(fileId, reference) ==
            if fileId.Some? then Ok(FileSource(fileId.value))
            else if reference.None? then Err(MissingMember)
            else Ok(ReferenceSource(reference.value))
    ensures forall url :: ReferenceSource(url) == UrlSource(url) || ReferenceSource(url).Base64Source?
  {}

  // ----- arguments -----

  /** Plain arguments that are JSON, and no string, are read as that; empty ones, and such that neither are
      JSON nor can be repaired, as the empty object. */
  lemma ArgumentsTold(codec: Codec, raw: string)
    ensures raw == "" ==> ArgumentsToInput(codec, raw) == JOther("{}")
    ensures raw != "" && codec.parse(raw).None? && codec.parse(Settle(raw, raw)).None? ==>
              ArgumentsToInput(codec, raw) == JOther("{}")
    ensures raw != "" && Plain(raw) && codec.parse(raw).Some? && codec.parse(raw).value.JOther? ==>
              ArgumentsToInput(codec, raw) == codec.parse(raw).value
    ensures raw != "" && codec.parse(Settle(raw, raw)).None? && codec.parse(raw).Some?
            && codec.parse(raw).value.JOther? ==>
              ArgumentsToInput(codec, raw) == codec.parse(raw).value
  {
    SettleShrinks(raw, raw);
  }

  // ----- messages to Anthropic -----

  /** Tool calls become tool uses, one by one, with substitutes for missing ids and names. */
  lemma {:induction false} CallsTold(codec: Codec, calls: seq<ToolCall>)
    ensures |MappedCalls(codec, calls)| == |calls|
    ensures forall i :: 0 <= i < |calls| ==>
              MappedCalls(codec, calls)[i] ==
              ToolUse(Some(if calls[i].id.Some? then calls[i].id.value else "toolu_unknown"),
                      Some(if calls[i].name.Some? then calls[i].name.value else "tool"),
                      ArgumentsToInput(codec, calls[i].arguments))
  {
    if calls != [] {
      CallsTold(codec, calls[..|calls| - 1]);
    }
  }

  /** A tool message becomes one tool result, said by the user; without an id it is refused. */
  lemma ToolMessageTold(codec: Codec, id: Option<string>, content: Json)
    ensures ToAnthropic(codec, ToolMessage(id, content)) ==
            if id.None? then Err(MissingMember)
            else Ok(AnthropicMessage(Some("user"), Blocks([ToolResult(id, content)])))
  {}

  /** A message of user or assistant keeps its role, and its text, or texts and images, come before its tool
      calls; any other role is refused. */
  lemma ChatTold(codec: Codec, role: string, content: Content, calls: seq<ToolCall>, thinking: Option<string>)
    ensures var r := ToAnthropic(codec, Chat(role, content, calls, thinking));
            var shown := if content.Plaintext? then Ok(if content.text == "" then [] else [Text(content.text)])
                         else if content.Blocks? then MappedBlocks(content.blocks) else Ok([]);
            if role != "user" && role != "assistant" then r == Err(UnsupportedRole)
            else if shown.Err? then r == Err(shown.error)
            else r == Ok(AnthropicMessage(Some(role), Blocks(shown.value + MappedCalls(codec, calls))))
  {
    var used := MappedCalls(codec, calls);
    assert [] + used == used;
  }

  // ----- messages to OpenAI -----

  /** What the blocks have to give, in order. */
  function Gathered<T>(blocks: seq<Block>, part: Block -> seq<T>): seq<T> {
    if blocks == [] then [] else part(blocks[0]) + Gathered(blocks[1..], part)
  }

  /** Content, calls and thoughts of an assistant message. */
  function Contents(blocks: seq<Block>): seq<Block> {
    Gathered(blocks, (b: Block) => if b.ToolUse? || b.Thinking? then [] else [b])
  }

  function CallsIn(codec: Codec, blocks: seq<Block>): seq<ToolCall> {
    Gathered(blocks, (b: Block) => if b.ToolUse? then [ToolCall(b.id, b.name, codec.print_(b.input))] else [])
  }

  function Thoughts(blocks: seq<Block>): seq<string> {
    Gathered(blocks, (b: Block) => if b.Thinking? then [b.thinking] else [])
  }

  lemma {:induction false} GatheredMore<T>(front: seq<Block>, last: Block, part: Block -> seq<T>)
    ensures Gathered(front + [last], part) == Gathered(front, part) + part(last)
  {
    if front == [] {
      assert front + [last] == [last];
    } else {
      assert (front + [last])[1..] == front[1..] + [last];
      GatheredMore(front[1..], last, part);
      Assoc(part(front[0]), Gathered(front[1..], part), part(last));
    }
  }

  predicate Complete(block: Block) { block.ToolUse? ==> block.id.Some? && block.name.Some? }

  function Parts(codec: Codec, blocks: seq<Block>): Sorted {
    Sorted(Contents(blocks), CallsIn(codec, blocks), Thoughts(blocks))
  }

  lemma OnePartMore(codec: Codec, front: seq<Block>, last: Block)
    ensures SortBlock(codec, Parts(codec, front), last) ==
            if Complete(last) then Ok(Parts(codec, front + [last])) else Err(MissingMember)
  {
    GatheredMore(front, last, (b: Block) => if b.ToolUse? || b.Thinking? then [] else [b]);
    GatheredMore(front, last, (b: Block) => if b.Thinking? then [b.thinking] else []);
    GatheredMore(front, last,
                 (b: Block) => if b.ToolUse? then [ToolCall(b.id, b.name, codec.print_(b.input))] else []);
    assert Contents(front) + [] == Contents(front) && Thoughts(front) + [] == Thoughts(front);
    assert CallsIn(codec, front) + [] == CallsIn(codec, front);
  }

  lemma {:induction false} PartsTold(codec: Codec, blocks: seq<Block>)
    ensures SortBlocks(codec, blocks) ==
            if forall b <- blocks :: Complete(b) then Ok(Parts(codec, blocks)) else Err(MissingMember)
  {
    if blocks != [] {
      var front, last := blocks[..|blocks| - 1], blocks[|blocks| - 1];
      assert blocks == front + [last];
      PartsTold(codec, front);
      OnePartMore(codec, front, last);
      assert (forall b <- blocks :: Complete(b)) <==> (forall b <- front :: Complete(b)) && Complete(last);
    }
  }

  /** An assistant message becomes one message with the same blocks but for thinking and tool uses, the tool
      uses as calls, whose arguments are the printed inputs, and all thinking on lines of its own; it is
      refused exactly if a tool use has no id or no name. */
  lemma AssistantTold(codec: Codec, content: Content)
    ensures var blocks := match content
                          case Plaintext(text) => [Text(text)]
                          case Blocks(blocks) => blocks
                          case _ => [];
            ToOpenAi(codec, AnthropicMessage(Some("assistant"), content)) ==
            if exists b <- blocks :: !Complete(b) then Err(MissingMember)
            else Ok([Chat("assistant", Blocks(Contents(blocks)), CallsIn(codec, blocks),
                          if Thoughts(blocks) == [] then None else Some(Join(Thoughts(blocks))))])
  {
    PartsTold(codec, AnthropicBlocks(content));
  }

  // ----- a user's blocks -----

  /** The blocks that a message was made of. */
  function MadeOf(m: OpenAiMessage): seq<Block> {
    match m
    case ToolMessage(id, result) => [ToolResult(id, result)]
    case Chat(_, Blocks(blocks), _, _) => blocks
    case _ => []
  }

  function AllMadeOf(ms: seq<OpenAiMessage>): seq<Block> {
    if ms == [] then [] else AllMadeOf(ms[..|ms| - 1]) + MadeOf(ms[|ms| - 1])
  }

  /** A message of the given role with blocks that are no tool results, and nothing else. */
  predicate Plainly(role: string, m: OpenAiMessage) {
    && m.Chat? && m.role == role && m.toolCalls == [] && m.thinking == None
    && m.content.Blocks? && m.content.blocks != [] && forall b <- m.content.blocks :: !b.ToolResult?
  }

  /** Tool messages, and messages of the given role, no two of which follow each other. */
  ghost predicate WellSplit(role: string, ms: seq<OpenAiMessage>) {
    && (forall i :: 0 <= i < |ms| ==> ms[i].ToolMessage? || Plainly(role, ms[i]))
    && (forall i :: 0 < i < |ms| ==> ms[i - 1].ToolMessage? || ms[i].ToolMessage?)
  }

  /** The same while blocks are being collected. */
  ghost predicate SplitSoFar(role: string, blocks: seq<Block>, ms: seq<OpenAiMessage>, buffer: seq<Block>) {
    && WellSplit(role, ms) && (ms != [] ==> ms[|ms| - 1].ToolMessage?)
    && (forall b <- buffer :: !b.ToolResult?)
    && AllMadeOf(ms) + buffer == blocks
  }

  lemma OneMoreMade(ms: seq<OpenAiMessage>, m: OpenAiMessage)
    ensures AllMadeOf(ms + [m]) == AllMadeOf(ms) + MadeOf(m)
  {
    assert (ms + [m])[..|ms|] == ms;
  }

  lemma FlushTold(role: string, blocks: seq<Block>, ms: seq<OpenAiMessage>, buffer: seq<Block>)
    requires SplitSoFar(role, blocks, ms, buffer)
    ensures WellSplit(role, ms + Flushed(role, buffer)) && AllMadeOf(ms + Flushed(role, buffer)) == blocks
  {
    if buffer == [] {
      assert ms + [] == ms && AllMadeOf(ms) + [] == AllMadeOf(ms);
    } else {
      OneMoreMade(ms, Chat(role, Blocks(buffer), [], None));
    }
  }

  lemma OneMoreSplit(role: string, ms: seq<OpenAiMessage>, m: OpenAiMessage)
    requires WellSplit(role, ms) && m.ToolMessage?
    ensures WellSplit(role, ms + [m])
  {
    var all := ms + [m];
    assert forall i :: 0 <= i < |ms| ==> all[i] == ms[i];
  }

  lemma ResultTold(role: string, blocks: seq<Block>, ms: seq<OpenAiMessage>, buffer: seq<Block>, last: Block)
    requires SplitSoFar(role, blocks, ms, buffer) && last.ToolResult?
    ensures var all := ms + Flushed(role, buffer) + [ToolMessage(last.toolUseId, last.content)];
            SplitSoFar(role, blocks + [last], all, [])
  {
    var flushed, m := ms + Flushed(role, buffer), ToolMessage(last.toolUseId, last.content);
    FlushTold(role, blocks, ms, buffer);
    OneMoreMade(flushed, m);
    OneMoreSplit(role, flushed, m);
    assert AllMadeOf(flushed + [m]) + [] == blocks + [last];
  }

  lemma {:induction false} SplitTold(role: string, blocks: seq<Block>)
    ensures SplitBlocks(role, blocks).Ok? <==> forall b <- blocks :: b.ToolResult? ==> b.toolUseId.Some?
    ensures match SplitBlocks(role, blocks)
            case Err(error) => error == MissingMember
            case Ok((ms, buffer)) => SplitSoFar(role, blocks, ms, buffer)
  {
    if blocks != [] {
      var front, last := blocks[..|blocks| - 1], blocks[|blocks| - 1];
      assert blocks == front + [last];
      SplitTold(role, front);
      if SplitBlocks(role, front).Ok? {
        var (ms, buffer) := SplitBlocks(role, front).value;
        if last.ToolResult? {
          ResultTold(role, front, ms, buffer, last);
        } else {
          Assoc(AllMadeOf(ms), buffer, [last]);
        }
      }
    }
  }

  /** A message of anybody else keeps its role. A text stays one; blocks become messages that hold just these
      blocks in their order, a tool result each by itself and no two others in a row; it is refused
      exactly if a tool result has no id. */
  lemma UserTold(codec: Codec, role: string, content: Content)
    requires role != "assistant"
    ensures var r, blocks := ToOpenAi(codec, AnthropicMessage(Some(role), content)), AnthropicBlocks(content);
            if content.Plaintext? then r == Ok([Chat(role, content, [], None)])
            else if exists b <- blocks :: b.ToolResult? && b.toolUseId.None? then r == Err(MissingMember)
            else r.Ok? && WellSplit(role, r.value) && AllMadeOf(r.value) == blocks
  {
    var blocks := AnthropicBlocks(content);
    SplitTold(role, blocks);
    if SplitBlocks(role, blocks).Ok? {
      FlushTold(role, blocks, SplitBlocks(role, blocks).value.0, SplitBlocks(role, blocks).value.1);
    }
  }
}
