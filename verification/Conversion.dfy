/** Conversations between the Anthropic and the OpenAI message format
    (unigateway-core/src/conversion/messages.rs:12-148, 237-246, blocks.rs, tool_calls.rs:172-200). */
module Conversion {
  import opened Common
  import opened Strings
  import opened JsonStrings
  import opened ToolCalls

  /** A JSON value; only strings are looked into. */
  datatype Json = JString(text: string) | JOther(value: string)

  const EMPTY_INPUT := JOther("{}")

  /** Printing and parsing of JSON. */
  datatype Printer = Printer(print_: Json -> string, parse: string -> Option<Json>)

  /** A text that parses to a string is longer than that string, by its quotes. */
  ghost predicate Quotes(printer: Printer) {
    forall s: string :: printer.parse(s).Some? && printer.parse(s).value.JString?
      ==> |printer.parse(s).value.text| < |s|
  }

  type Codec = c: Printer | Quotes(c) witness Printer((v: Json) => "", (s: string) => None)

  /** They are inverse, nothing is no JSON, strings are printed as literals, and what is printed for
      anything else does not look like one, nor like an empty object with more behind it. */
  ghost predicate Faithful(codec: Codec) {
    && (forall v :: codec.parse(codec.print_(v)) == Some(v))
    && codec.parse("") == None
    && (forall s :: codec.print_(JString(s)) == EncodeLiteral(s))
    && (forall v: Json :: v.JOther? ==> codec.print_(v) != "" && Plain(codec.print_(v)))
  }

  datatype Source = FileSource(fileId: string) | Base64Source(mediaType: string, data: string) | UrlSource(url: string)

  /** A content block by its type: `text`, `input_text`, `thinking`, `tool_use`, `tool_result`, `image`
      (Anthropic's), `image_url` or `input_image` (OpenAI's, with a file id or a reference if they are
      there), and all of a block of any other type, or of none. */
  datatype Block =
    | Text(text: string)
    | InputText(text: string)
    | Thinking(thinking: string, signature: Option<string>)
    | ToolUse(id: Option<string>, name: Option<string>, input: Json)
    | ToolResult(toolUseId: Option<string>, content: Json)
    | Image(source: Source)
    | ImageUrl(fileId: Option<string>, reference: Option<string>)
    | Other(block: Json)

  /** A string, an array, nothing or null, or any other value. */
  datatype Content = Plaintext(text: string) | Blocks(blocks: seq<Block>) | NoContent | OddContent

  datatype AnthropicMessage = AnthropicMessage(role: Option<string>, content: Content)

  datatype ToolCall = ToolCall(id: Option<string>, name: Option<string>, arguments: string)

  datatype OpenAiMessage =
    | Chat(role: string, content: Content, toolCalls: seq<ToolCall>, thinking: Option<string>)
    | ToolMessage(toolCallId: Option<string>, result: Json)

  datatype ConversionError = MissingMember | UnsupportedRole | UnsupportedBlock | UnsupportedContent

  // ----- Anthropic to OpenAI -----

  function AnthropicBlocks(content: Content): seq<Block> {
    match content
    case Plaintext(text) => [Text(text)]
    case Blocks(blocks) => blocks
    case _ => []
  }

  /** An assistant message taken apart. */
  datatype Sorted = Sorted(content: seq<Block>, toolCalls: seq<ToolCall>, thinking: seq<string>)

  function SortBlock(codec: Codec, s: Sorted, block: Block): Result<Sorted, ConversionError> {
    match block
    case ToolUse(id, name, input) =>
      if id.None? || name.None? then Err(MissingMember)
      else Ok(s.(toolCalls := s.toolCalls + [ToolCall(id, name, codec.print_(input))]))
    case Thinking(thinking, _) => Ok(s.(thinking := s.thinking + [thinking]))
    case _ => Ok(s.(content := s.content + [block]))
  }

  function SortBlocks(codec: Codec, blocks: seq<Block>): Result<Sorted, ConversionError> {
    if blocks == [] then Ok(Sorted([], [], []))
    else
      match SortBlocks(codec, blocks[..|blocks| - 1])
      case Err(error) => Err(error)
      case Ok(s) => SortBlock(codec, s, blocks[|blocks| - 1])
  }

  function AssistantMessage(s: Sorted): OpenAiMessage {
    Chat("assistant", Blocks(s.content), s.toolCalls, if s.thinking == [] then None else Some(Join(s.thinking)))
  }

  function Flushed(role: string, buffer: seq<Block>): seq<OpenAiMessage> {
    if buffer == [] then [] else [Chat(role, Blocks(buffer), [], None)]
  }

  /** The messages pushed so far and the blocks not yet flushed. */
  function SplitBlocks(role: string, blocks: seq<Block>): Result<(seq<OpenAiMessage>, seq<Block>), ConversionError> {
    if blocks == [] then Ok(([], []))
    else
      match SplitBlocks(role, blocks[..|blocks| - 1])
      case Err(error) => Err(error)
      case Ok((messages, buffer)) =>
        match blocks[|blocks| - 1]
        case ToolResult(id, content) =>
          if id.None? then Err(MissingMember)
          else Ok((messages + Flushed(role, buffer) + [ToolMessage(id, content)], []))
        case block => Ok((messages, buffer + [block]))
  }

  function ToOpenAi(codec: Codec, m: AnthropicMessage): Result<seq<OpenAiMessage>, ConversionError> {
    var role := m.role.GetOr("user");
    if role == "assistant" then
      (match SortBlocks(codec, AnthropicBlocks(m.content))
       case Err(error) => Err(error)
       case Ok(s) => Ok([AssistantMessage(s)]))
    else if m.content.Plaintext? then Ok([Chat(role, m.content, [], None)])
    else
      (match SplitBlocks(role, AnthropicBlocks(m.content))
       case Err(error) => Err(error)
       case Ok((messages, buffer)) => Ok(messages + Flushed(role, buffer)))
  }

  function AllToOpenAi(codec: Codec, ms: seq<AnthropicMessage>): Result<seq<OpenAiMessage>, ConversionError> {
    if ms == [] then Ok([])
    else
      match AllToOpenAi(codec, ms[..|ms| - 1])
      case Err(error) => Err(error)
      case Ok(front) =>
        match ToOpenAi(codec, ms[|ms| - 1])
        case Err(error) => Err(error)
        case Ok(more) => Ok(front + more)
  }

  method SortAssistantBlocks(codec: Codec, blocks: seq<Block>) returns (r: Result<Sorted, ConversionError>)
    ensures r == SortBlocks(codec, blocks)
  {
    var contentBlocks, toolCalls, thinkingParts := [], [], [];
    for i := 0 to |blocks|
      invariant SortBlocks(codec, blocks[..i]) == Ok(Sorted(contentBlocks, toolCalls, thinkingParts))
    {
      SortFailureStays(codec, blocks, i + 1);
      assert blocks[..i + 1][..i] == blocks[..i];
      match blocks[i] {
        case ToolUse(id, name, input) =>
          if id.None? || name.None? { return Err(MissingMember); }
          toolCalls := toolCalls + [ToolCall(id, name, codec.print_(input))];
        case Thinking(thinking, _) => thinkingParts := thinkingParts + [thinking];
        case block => contentBlocks := contentBlocks + [block];
      }
    }
    assert blocks[..|blocks|] == blocks;
    r := Ok(Sorted(contentBlocks, toolCalls, thinkingParts));
  }

  lemma {:induction false} SortFailureStays(codec: Codec, blocks: seq<Block>, n: nat)
    requires n <= |blocks|
    ensures SortBlocks(codec, blocks[..n]).Err? ==> SortBlocks(codec, blocks) == SortBlocks(codec, blocks[..n])
    decreases |blocks| - n
  {
    if n < |blocks| {
      SortFailureStays(codec, blocks, n + 1);
      assert blocks[..n + 1][..n] == blocks[..n];
    } else {
      assert blocks[..n] == blocks;
    }
  }

  /** Empties the buffer into a message of its own. */
  method FlushUserBlocks(messages: seq<OpenAiMessage>, userBlocks: seq<Block>, role: string)
    returns (more: seq<OpenAiMessage>, emptied: seq<Block>)
    ensures more == messages + Flushed(role, userBlocks) && emptied == []
  {
    if userBlocks == [] { return messages, []; }
    more, emptied := messages + [Chat(role, Blocks(userBlocks), [], None)], [];
  }

  method SplitUserBlocks(role: string, blocks: seq<Block>) returns (r: Result<seq<OpenAiMessage>, ConversionError>)
    ensures r == match SplitBlocks(role, blocks)
                 case Err(error) => Err(error)
                 case Ok((messages, buffer)) => Ok(messages + Flushed(role, buffer))
  {
    var messages, userBlocks: seq<Block> := [], [];
    for i := 0 to |blocks|
      invariant SplitBlocks(role, blocks[..i]) == Ok((messages, userBlocks))
    {
      SplitFailureStays(role, blocks, i + 1);
      assert blocks[..i + 1][..i] == blocks[..i];
      if blocks[i].ToolResult? {
        messages, userBlocks := FlushUserBlocks(messages, userBlocks, role);
        if blocks[i].toolUseId.None? { return Err(MissingMember); }
        messages := messages + [ToolMessage(blocks[i].toolUseId, blocks[i].content)];
      } else {
        userBlocks := userBlocks + [blocks[i]];
      }
    }
    assert blocks[..|blocks|] == blocks;
    messages, userBlocks := FlushUserBlocks(messages, userBlocks, role);
    r := Ok(messages);
  }

  lemma {:induction false} SplitFailureStays(role: string, blocks: seq<Block>, n: nat)
    requires n <= |blocks|
    ensures SplitBlocks(role, blocks[..n]).Err? ==> SplitBlocks(role, blocks) == SplitBlocks(role, blocks[..n])
    decreases |blocks| - n
  {
    if n < |blocks| {
      SplitFailureStays(role, blocks, n + 1);
      assert blocks[..n + 1][..n] == blocks[..n];
    } else {
      assert blocks[..n] == blocks;
    }
  }

  method AnthropicMessagesToOpenAiMessages(codec: Codec, ms: seq<AnthropicMessage>)
    returns (r: Result<seq<OpenAiMessage>, ConversionError>)
    ensures r == AllToOpenAi(codec, ms)
  {
    var openaiMessages := [];
    for i := 0 to |ms|
      invariant AllToOpenAi(codec, ms[..i]) == Ok(openaiMessages)
    {
      ToOpenAiFailureStays(codec, ms, i + 1);
      assert ms[..i + 1][..i] == ms[..i];
      var role := ms[i].role.GetOr("user");
      if role == "assistant" {
        var sorted := SortAssistantBlocks(codec, AnthropicBlocks(ms[i].content));
        if sorted.Err? { return Err(sorted.error); }
        openaiMessages := openaiMessages + [AssistantMessage(sorted.value)];
      } else if ms[i].content.Plaintext? {
        openaiMessages := openaiMessages + [Chat(role, ms[i].content, [], None)];
      } else {
        var split := SplitUserBlocks(role, AnthropicBlocks(ms[i].content));
        if split.Err? { return Err(split.error); }
        openaiMessages := openaiMessages + split.value;
      }
    }
    assert ms[..|ms|] == ms;
    r := Ok(openaiMessages);
  }

  lemma {:induction false} ToOpenAiFailureStays(codec: Codec, ms: seq<AnthropicMessage>, n: nat)
    requires n <= |ms|
    ensures AllToOpenAi(codec, ms[..n]).Err? ==> AllToOpenAi(codec, ms) == AllToOpenAi(codec, ms[..n])
    decreases |ms| - n
  {
    if n < |ms| {
      ToOpenAiFailureStays(codec, ms, n + 1);
      assert ms[..n + 1][..n] == ms[..n];
    } else {
      assert ms[..n] == ms;
    }
  }

  // ----- OpenAI to Anthropic -----

  /** Strings that are themselves JSON are opened, as often as that goes. */
  function Unwrapped(codec: Codec, v: Json): Json
    decreases if v.JString? then |v.text| + 1 else 0
  {
    if v.JOther? then v
    else
      match codec.parse(v.text)
      case None => v
      case Some(inner) => Unwrapped(codec, inner)
  }

  function ArgumentsToInput(codec: Codec, raw: string): Json {
    if raw == "" then EMPTY_INPUT
    else
      var normalized := codec.parse(Normalize(raw, raw));
      var parsed := if normalized.Some? then normalized else codec.parse(raw);
      Unwrapped(codec, parsed.GetOr(EMPTY_INPUT))
  }

  function ToolUseBlock(codec: Codec, call: ToolCall): Block {
    ToolUse(Some(call.id.GetOr("toolu_unknown")), Some(call.name.GetOr("tool")),
            ArgumentsToInput(codec, call.arguments))
  }

  const DATA_SCHEME := "data:"
  const BASE64_MARK := ";base64"

  /** The media type and data of a base64 data URL. */
  function ParseDataUrl(url: string): Option<(string, string)> {
    if !(DATA_SCHEME <= url) then None
    else
      var payload := url[|DATA_SCHEME|..];
      var comma := IndexOf(payload, ',');
      if comma == |payload| then None
      else
        var metadata, data := payload[..comma], payload[comma + 1..];
        if |metadata| <= |BASE64_MARK| || metadata[|metadata| - |BASE64_MARK|..] != BASE64_MARK || data == "" then None
        else Some((metadata[..|metadata| - |BASE64_MARK|], data))
  }

  function ReferenceSource(url: string): Source {
    match ParseDataUrl(url)
    case Some((mediaType, data)) => Base64Source(mediaType, data)
    case None => UrlSource(url)
  }

  /** Where an OpenAI image comes from; a file id goes first. */
  function ImageSource(fileId: Option<string>, reference: Option<string>): Result<Source, ConversionError> {
    match (fileId, reference)
    case (Some(id), _) => Ok(FileSource(id))
    case (None, Some(url)) => Ok(ReferenceSource(url))
    case (None, None) => Err(MissingMember)
  }

  /** A content block in strict mode: empty texts vanish, OpenAI's images become Anthropic's, and all
      other types are refused. */
  function MappedBlock(block: Block): Result<seq<Block>, ConversionError> {
    match block
    case Text(text) => Ok(if text == "" then [] else [Text(text)])
    case InputText(text) => Ok(if text == "" then [] else [Text(text)])
    case ImageUrl(fileId, reference) =>
      (match ImageSource(fileId, reference)
       case Ok(source) => Ok([Image(source)])
       case Err(error) => Err(error))
    case _ => Err(UnsupportedBlock)
  }

  function MappedBlocks(blocks: seq<Block>): Result<seq<Block>, ConversionError> {
    if blocks == [] then Ok([])
    else
      match MappedBlocks(blocks[..|blocks| - 1])
      case Err(error) => Err(error)
      case Ok(front) =>
        match MappedBlock(blocks[|blocks| - 1])
        case Err(error) => Err(error)
        case Ok(more) => Ok(front + more)
  }

  function MappedCalls(codec: Codec, calls: seq<ToolCall>): seq<Block> {
    if calls == [] then []
    else MappedCalls(codec, calls[..|calls| - 1]) + [ToolUseBlock(codec, calls[|calls| - 1])]
  }

  function ContentBlocks(codec: Codec, content: Content, calls: seq<ToolCall>): Result<seq<Block>, ConversionError> {
    match content
    case Plaintext(text) => Ok((if text == "" then [] else [Text(text)]) + MappedCalls(codec, calls))
    case Blocks(blocks) =>
      (match MappedBlocks(blocks)
       case Err(error) => Err(error)
       case Ok(mapped) => Ok(mapped + MappedCalls(codec, calls)))
    case _ => Ok(MappedCalls(codec, calls))
  }

  /** The Anthropic message for a message that is not a system message. */
  function ToAnthropic(codec: Codec, m: OpenAiMessage): Result<AnthropicMessage, ConversionError> {
    match m
    case Chat(role, content, calls, _) =>
      if role != "user" && role != "assistant" then Err(UnsupportedRole)
      else
        (match ContentBlocks(codec, content, calls)
         case Err(error) => Err(error)
         case Ok(blocks) => Ok(AnthropicMessage(Some(role), Blocks(blocks))))
    case ToolMessage(id, content) =>
      if id.None? then Err(MissingMember)
      else Ok(AnthropicMessage(Some("user"), Blocks([ToolResult(id, content)])))
  }

  function SystemTexts(content: Content): Result<seq<string>, ConversionError> {
    match content
    case Plaintext(text) => Ok([text])
    case Blocks(blocks) => Ok(TextsOf(blocks))
    case NoContent => Ok([])
    case OddContent => Err(UnsupportedContent)
  }

  function TextsOf(blocks: seq<Block>): seq<string> {
    if blocks == [] then []
    else
      var last := blocks[|blocks| - 1];
      TextsOf(blocks[..|blocks| - 1]) + if last.Text? || last.InputText? then [last.text] else []
  }

  /** A system prompt: a single text as a string, several as blocks, or the one given beforehand. */
  datatype System = SystemText(text: string) | SystemBlocks(texts: seq<string>) | Given(system: Json)

  function Collapsed(texts: seq<string>): System {
    if |texts| == 1 then SystemText(texts[0]) else SystemBlocks(texts)
  }

  function SystemOf(texts: seq<string>, fallback: Option<Json>): Option<System> {
    if texts != [] then Some(Collapsed(texts))
    else match fallback case Some(system) => Some(Given(system)) case None => None
  }

  /** System texts and messages. */
  function AllToAnthropic(codec: Codec,
                          ms: seq<OpenAiMessage>): Result<(seq<string>, seq<AnthropicMessage>), ConversionError> {
    if ms == [] then Ok(([], []))
    else
      match AllToAnthropic(codec, ms[..|ms| - 1])
      case Err(error) => Err(error)
      case Ok((system, messages)) =>
        var m := ms[|ms| - 1];
        if m.Chat? && m.role == "system" then
          match SystemTexts(m.content)
          case Err(error) => Err(error)
          case Ok(texts) => Ok((system + texts, messages))
        else
          match ToAnthropic(codec, m)
          case Err(error) => Err(error)
          case Ok(converted) => Ok((system, messages + [converted]))
  }

  /** System prompt and messages in Anthropic's form. */
  function AnthropicForm(codec: Codec, ms: seq<OpenAiMessage>, fallbackSystem: Option<Json>)
    : Result<(Option<System>, seq<AnthropicMessage>), ConversionError>
  {
    match AllToAnthropic(codec, ms)
    case Err(error) => Err(error)
    case Ok((texts, messages)) => Ok((SystemOf(texts, fallbackSystem), messages))
  }

  method OpenAiMessagesToAnthropicMessages(codec: Codec, ms: seq<OpenAiMessage>, fallbackSystem: Option<Json>)
    returns (r: Result<(Option<System>, seq<AnthropicMessage>), ConversionError>)
    ensures r == AnthropicForm(codec, ms, fallbackSystem)
  {
    var systemTexts, anthropicMessages := [], [];
    for i := 0 to |ms|
      invariant AllToAnthropic(codec, ms[..i]) == Ok((systemTexts, anthropicMessages))
    {
      ToAnthropicFailureStays(codec, ms, i + 1);
      assert ms[..i + 1][..i] == ms[..i];
      if ms[i].Chat? && ms[i].role == "system" {
        var texts := SystemTexts(ms[i].content);
        if texts.Err? { return Err(texts.error); }
        systemTexts := systemTexts + texts.value;
      } else {
        var converted := ToAnthropic(codec, ms[i]);
        if converted.Err? { return Err(converted.error); }
        anthropicMessages := anthropicMessages + [converted.value];
      }
    }
    assert ms[..|ms|] == ms;
    var system := if fallbackSystem.Some? then Some(Given(fallbackSystem.value)) else None;
    if systemTexts != [] {
      system := Some(Collapsed(systemTexts));
    }
    r := Ok((system, anthropicMessages));
  }

  lemma {:induction false} ToAnthropicFailureStays(codec: Codec, ms: seq<OpenAiMessage>, n: nat)
    requires n <= |ms|
    ensures AllToAnthropic(codec, ms[..n]).Err? ==> AllToAnthropic(codec, ms) == AllToAnthropic(codec, ms[..n])
    decreases |ms| - n
  {
    if n < |ms| {
      ToAnthropicFailureStays(codec, ms, n + 1);
      assert ms[..n + 1][..n] == ms[..n];
    } else {
      assert ms[..n] == ms;
    }
  }
}
