/**
 * The decoded shape of the streaming wire formats. Events that reach the
 * translators are records with optional fields, as their JSON decoders fill
 * them; frames that leave the translators are the values printed as JSON.
 */
module Wire {
  import opened Basics

  /** One server-sent event: its name, its raw data and its decoding (None when the JSON does not decode). */
  datatype SseEvent<+P> = SseEvent(event: string, raw: string, payload: Option<P>)

  /** The supply of random identifiers: the n-th draw of a translator. */
  type IdSource = nat -> string

  // ----- OpenAI Chat stream chunks -----

  datatype ToolDelta = ToolDelta(index: Option<int>, id: string, name: string, arguments: string)
  datatype ChatDelta = ChatDelta(role: string, content: Option<string>, reasoning: Option<string>,
      tools: seq<ToolDelta>)
  datatype Choice = Choice(delta: ChatDelta, finish: Option<string>)
  datatype ChatUsage = ChatUsage(prompt: Option<int>, completion: Option<int>, total: Option<int>)
  datatype ChatChunk = ChatChunk(id: string, model: string, choices: seq<Choice>, usage: Option<ChatUsage>)

  /** A line of a Chat event stream: a chunk, or the closing [DONE] marker. */
  datatype ChatFrame = Data(chunk: ChatChunk) | Done

  const EMPTY_DELTA := ChatDelta("", None, None, [])

  function ChunkIn(frame: ChatFrame): seq<ChatChunk> {
    if frame.Data? then [frame.chunk] else []
  }

  /** The chunks of a Chat stream, without the [DONE] markers. */
  function ChunksOf(frames: seq<ChatFrame>): seq<ChatChunk> {
    if frames == [] then [] else ChunkIn(frames[0]) + ChunksOf(frames[1..])
  }

  lemma {:induction false} ChunksOfAppend(a: seq<ChatFrame>, b: seq<ChatFrame>)
    ensures ChunksOf(a + b) == ChunksOf(a) + ChunksOf(b)
  {
    if a == [] {
      assert a + b == b;
    } else {
      assert (a + b)[1..] == a[1..] + b;
      ChunksOfAppend(a[1..], b);
      Assoc(ChunkIn(a[0]), ChunksOf(a[1..]), ChunksOf(b));
    }
  }

  // ----- Anthropic Messages stream -----

  datatype BlockHead = TextHead | ThinkingHead | ToolHead(id: string, name: string)
  datatype BlockDelta = TextDelta(text: string) | ThinkingDelta(text: string) | JsonDelta(text: string)

  datatype AnthropicFrame =
    | MessageStart(id: string, model: string)
    | BlockStart(index: int, head: BlockHead)
    | BlockDeltaFrame(index: int, delta: BlockDelta)
    | BlockStop(index: int)
    | MessageDelta(stop: string, output: Option<int>)
    | MessageStop

  datatype MessageField = MessageField(model: string, usage: Option<Option<int>>)
  datatype BlockField = BlockField(typ: string, id: string, name: string)
  datatype DeltaField = DeltaField(typ: string, text: string, partialJson: string, stopReason: Option<string>)

  /**
   * An Anthropic stream event as decoded. `message.usage` keeps the input
   * token count, `usage` the output token count; the outer option says
   * whether the object is present at all.
   */
  datatype AnthropicPayload = AnthropicPayload(
    typ: string,
    index: Option<int>,
    message: Option<MessageField>,
    contentBlock: Option<BlockField>,
    delta: Option<DeltaField>,
    usage: Option<Option<int>>,
    error: Option<string>)

  type AnthropicEvent = SseEvent<AnthropicPayload>

  // ----- OpenAI Responses stream -----

  /** A tool argument as decoded: nothing, a string, or another JSON value with its printed form. */
  datatype JsonArg = Absent | Str(text: string) | Other(printed: string)

  datatype ItemField = ItemField(id: string, typ: string, callId: string, name: string, arguments: JsonArg,
      input: JsonArg)
  datatype ResponsesUsage = ResponsesUsage(input: Option<int>, prompt: Option<int>, output: Option<int>,
      completion: Option<int>)
  datatype ResponseField = ResponseField(model: string, usage: Option<ResponsesUsage>, error: Option<string>)

  /** A Responses stream event as decoded; `printed` is the decoded record printed again. */
  datatype ResponsesPayload = ResponsesPayload(
    typ: string,
    delta: string,
    itemId: string,
    item: Option<ItemField>,
    response: Option<ResponseField>,
    error: Option<string>,
    printed: string)

  type ResponsesEvent = SseEvent<ResponsesPayload>
}
