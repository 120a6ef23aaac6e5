/**
 * Request translation between the three protocols
 * (internal/provider/translate_anthropic.go, translate_responses.go,
 * common.go): text, tool calls and tool results of a conversation.
 */
module Translate {
  import opened Basics
  import opened Text

  // ----- JSON -----

  /** A finite IEEE 754 double by its bit pattern, as JSON numbers are decoded. */
  type Double = bits: nat | bits < 0x1_0000_0000_0000_0000 && bits / 0x10_0000_0000_0000 % 0x800 != 0x7FF

  datatype Json =
    | Null
    | Flag(on: bool)
    | Number(amount: Double)
    | Scalar(text: string)
    | List(items: seq<Json>)
    | Object(members: map<string, Json>)

  /** The JSON library: what it reads from a text, and the text it writes for a value or for a list of parts. */
  datatype Codec = Codec(parse: string -> Option<Json>, render: Json -> string, renderParts: seq<Part> -> string)

  /** Reading what was written gives the value back. */
  ghost predicate Lawful(codec: Codec) {
    forall v :: codec.parse(codec.render(v)) == Some(v) && codec.render(v) != ""
  }

  const EMPTY_OBJECT := "{}"
  const EMPTY_STRING := "\"\""

  /** The input of a tool call: its arguments if they read as an object. */
  function ToolArguments(codec: Codec, arguments: string): Json {
    if arguments != "" && codec.parse(arguments).Some? && codec.parse(arguments).value.Object?
      then codec.parse(arguments).value
    else Object(map[])
  }

  // ----- Conversations -----

  /** A content part: an object with a text, or a bare string. */
  datatype Part = Typed(text: string) | Bare(text: string)

  datatype Content = NoContent | Str(text: string) | Parts(parts: seq<Part>)

  /** `drawn` is the random id the call is given if it has none. */
  datatype ChatCall = ChatCall(id: string, name: string, arguments: string, drawn: string)

  datatype ChatMessage = ChatMessage(role: string, content: Content, calls: seq<ChatCall>, answers: string,
      reasoning: string)

  datatype Block =
    | TextBlock(text: string)
    | ToolUse(id: string, name: string, input: Option<Json>, drawn: string)
    | ToolResult(id: string, content: Content)
    | Thinking(text: string)

  datatype AnthropicMessage = AnthropicMessage(role: string, blocks: seq<Block>)

  datatype AnthropicRequest = AnthropicRequest(system: string, messages: seq<AnthropicMessage>)

  datatype Item =
    | MessageItem(role: string, texts: seq<string>)
    | Reasoning(text: string)
    | FunctionCall(id: string, name: string, arguments: string)
    | FunctionOutput(id: string, output: string)

  datatype ResponsesRequest = ResponsesRequest(instructions: string, input: seq<Item>)

  // ----- Lists -----

  /** What `f` finds in each item, in order. */
  function Collect<T, U>(items: seq<T>, f: T -> seq<U>): seq<U> {
    if items == [] then [] else Collect(items[..|items| - 1], f) + f(items[|items| - 1])
  }

  lemma CollectSnoc<T, U>(items: seq<T>, item: T, f: T -> seq<U>)
    ensures Collect(items + [item], f) == Collect(items, f) + f(item)
  {
    assert (items + [item])[..|items|] == items;
  }

  lemma CollectOne<T, U>(item: T, f: T -> seq<U>)
    ensures Collect([item], f) == f(item)
  {
    CollectSnoc([], item, f);
    assert [] + [item] == [item];
  }

  lemma {:induction false} CollectAppend<T, U>(a: seq<T>, b: seq<T>, f: T -> seq<U>)
    ensures Collect(a + b, f) == Collect(a, f) + Collect(b, f)
  {
    if b == [] {
      assert a + b == a;
    } else {
      var front, last := b[..|b| - 1], b[|b| - 1];
      CollectAppend(a, front, f);
      assert a + b == a + front + [last];
      CollectSnoc(a + front, last, f);
      Assoc(Collect(a, f), Collect(front, f), f(last));
    }
  }

  function JoinLines(lines: seq<string>): string {
    if lines == [] then ""
    else if |lines| == 1 then lines[0]
    else JoinLines(lines[..|lines| - 1]) + "\n" + lines[|lines| - 1]
  }

  // ----- What a conversation says -----

  datatype Said = Said(role: string, text: string)

  datatype Call = Call(id: string, name: string, input: Json)

  datatype Answer = Answer(id: string, text: string)

  predicate IsTurn(role: string) {
    role == "user" || role == "assistant"
  }

  predicate IsSystem(role: string) {
    role == "system" || role == "developer"
  }

  function Nonempty(text: string): seq<string> {
    if text == "" then [] else [text]
  }

  /** The texts of a content that are not empty. */
  function Texts(content: Content): seq<string> {
    match content
    case NoContent => []
    case Str(text) => Nonempty(text)
    case Parts(parts) => Collect(parts, (p: Part) => Nonempty(p.text))
  }

  function IdOf(id: string, drawn: string): string {
    if id == "" then "call_" + drawn else id
  }

  /** A call with a blank name is no call. */
  function CallOf(codec: Codec, c: ChatCall): seq<Call> {
    if Blank(c.name) then []
    else [Call(IdOf(c.id, c.drawn), TrimSpace(c.name),
      ToolArguments(codec, if c.arguments == "" then EMPTY_OBJECT else c.arguments))]
  }

  function AnswerText(codec: Codec, content: Content): string {
    match content
    case NoContent => codec.render(Null)
    case Str(text) => text
    case Parts(_) => JoinLines(Texts(content))
  }

  function Saying(role: string, texts: seq<string>): seq<Said> {
    seq(|texts|, i requires 0 <= i < |texts| => Said(role, texts[i]))
  }

  function SaidBy(m: ChatMessage): seq<Said> {
    if IsTurn(m.role) then Saying(m.role, Texts(m.content)) else []
  }

  function CallsOf(codec: Codec, calls: seq<ChatCall>): seq<Call> {
    Collect(calls, (c: ChatCall) => CallOf(codec, c))
  }

  function CalledBy(codec: Codec, m: ChatMessage): seq<Call> {
    if IsTurn(m.role) then CallsOf(codec, m.calls) else []
  }

  function AnsweredBy(codec: Codec, m: ChatMessage): seq<Answer> {
    if m.role == "tool" then [Answer(m.answers, AnswerText(codec, m.content))] else []
  }

  /** The turns of a conversation: who said what, the tool calls, the tool results. */
  function ChatSaid(msgs: seq<ChatMessage>): seq<Said> {
    Collect(msgs, SaidBy)
  }

  function ChatCalled(codec: Codec, msgs: seq<ChatMessage>): seq<Call> {
    Collect(msgs, (m: ChatMessage) => CalledBy(codec, m))
  }

  function ChatAnswered(codec: Codec, msgs: seq<ChatMessage>): seq<Answer> {
    Collect(msgs, (m: ChatMessage) => AnsweredBy(codec, m))
  }

  // ----- Chat to Anthropic -----

  /** A block with the role of the message it is in. */
  datatype Tagged = Tagged(role: string, block: Block)

  function Tag(role: string, blocks: seq<Block>): (r: seq<Tagged>)
    ensures |r| == |blocks| && forall i :: 0 <= i < |r| ==> r[i] == Tagged(role, blocks[i])
  {
    seq(|blocks|, i requires 0 <= i < |blocks| => Tagged(role, blocks[i]))
  }

  function Flatten(messages: seq<AnthropicMessage>): seq<Tagged> {
    Collect(messages, (m: AnthropicMessage) => Tag(m.role, m.blocks))
  }

  function TextBlocks(texts: seq<string>): seq<Block> {
    Collect(texts, (t: string) => [TextBlock(t)])
  }

  function ToolUseOf(codec: Codec, c: ChatCall): seq<Block> {
    if Blank(c.name) then []
    else
      [ToolUse(IdOf(c.id, c.drawn), TrimSpace(c.name),
        Some(ToolArguments(codec, if c.arguments == "" then EMPTY_OBJECT else c.arguments)), "")]
  }

  function ToolUses(codec: Codec, calls: seq<ChatCall>): seq<Block> {
    Collect(calls, (c: ChatCall) => ToolUseOf(codec, c))
  }

  function ResultContent(codec: Codec, content: Content): Content {
    match content
    case NoContent => Str(codec.render(Null))
    case Str(text) => content
    case Parts(parts) => if Texts(content) == [] then Str("") else Parts(TypedParts(Texts(content)))
  }

  function TypedParts(texts: seq<string>): (r: seq<Part>)
    ensures |r| == |texts| && forall i :: 0 <= i < |r| ==> r[i] == Typed(texts[i])
  {
    seq(|texts|, i requires 0 <= i < |texts| => Typed(texts[i]))
  }

  /** The blocks of one chat message, with the role they end up in: tool results are the user's. */
  function Expansion(codec: Codec, m: ChatMessage): seq<Tagged> {
    if IsTurn(m.role) then Tag(m.role, TextBlocks(Texts(m.content)) + ToolUses(codec, m.calls))
    else if m.role == "tool" then [Tagged("user", ToolResult(m.answers, ResultContent(codec, m.content)))]
    else []
  }

  function Expansions(codec: Codec, msgs: seq<ChatMessage>): seq<Tagged> {
    Collect(msgs, (m: ChatMessage) => Expansion(codec, m))
  }

  /** No message without blocks, no two neighbours of one role. */
  ghost predicate NormalForm(messages: seq<AnthropicMessage>) {
    && (forall i :: 0 <= i < |messages| ==> messages[i].blocks != [])
    && forall i :: 0 < i < |messages| ==> messages[i - 1].role != messages[i].role
  }

  lemma FlattenSnoc(messages: seq<AnthropicMessage>, m: AnthropicMessage)
    ensures Flatten(messages + [m]) == Flatten(messages) + Tag(m.role, m.blocks)
  {
    CollectSnoc(messages, m, (m: AnthropicMessage) => Tag(m.role, m.blocks));
  }

  method Flush(messages: seq<AnthropicMessage>, role: string, blocks: seq<Block>) returns (out: seq<AnthropicMessage>)
    requires NormalForm(messages)
    ensures NormalForm(out)
    ensures Flatten(out) == Flatten(messages) + Tag(role, blocks)
  {
    if blocks == [] { return messages; }
    var n := |messages|;
    if n > 0 && messages[n - 1].role == role {
      var front, last := messages[..n - 1], messages[n - 1];
      var merged := last.(blocks := last.blocks + blocks);
      out := messages[n - 1 := merged];
      assert messages == front + [last] && out == front + [merged];
      FlattenSnoc(front, last);
      FlattenSnoc(front, merged);
      assert Tag(role, merged.blocks) == Tag(role, last.blocks) + Tag(role, blocks);
      Assoc(Flatten(front), Tag(role, last.blocks), Tag(role, blocks));
      return;
    }
    out := messages + [AnthropicMessage(role, blocks)];
    FlattenSnoc(messages, AnthropicMessage(role, blocks));
  }

  function InstructionsText(content: Content): string {
    match content
    case NoContent => ""
    case Str(text) => text
    case Parts(parts) => JoinLines(Collect(parts, (p: Part) => if p.Typed? then Nonempty(p.text) else [p.text]))
  }

  /** The texts of the system messages, in order. */
  function Instructions(msgs: seq<ChatMessage>): seq<string> {
    Collect(msgs, (m: ChatMessage) => if IsSystem(m.role) then [InstructionsText(m.content)] else [])
  }

  function SystemTexts(msgs: seq<ChatMessage>): seq<string> {
    Collect(msgs, (m: ChatMessage) => if IsSystem(m.role) then Nonempty(InstructionsText(m.content)) else [])
  }

  /** The messages are the input's blocks in order, regrouped into normal form; the system messages are joined. */
  method TranslateChatToAnthropic(codec: Codec, msgs: seq<ChatMessage>) returns (out: AnthropicRequest)
    ensures NormalForm(out.messages)
    ensures Flatten(out.messages) == Expansions(codec, msgs)
    ensures out.system == JoinLines(SystemTexts(msgs))
  {
    var system: seq<string> := [];
    var messages: seq<AnthropicMessage> := [];
    for i := 0 to |msgs|
      invariant NormalForm(messages) && Flatten(messages) == Expansions(codec, msgs[..i])
      invariant system == SystemTexts(msgs[..i])
    {
      var msg := msgs[i];
      assert msgs[..i + 1][..i] == msgs[..i];
      if IsSystem(msg.role) {
        var text := InstructionsText(msg.content);
        if text != "" { system := system + [text]; }
      } else if IsTurn(msg.role) {
        var blocks := TextBlocks(Texts(msg.content)) + ToolUses(codec, msg.calls);
        messages := Flush(messages, msg.role, blocks);
      } else if msg.role == "tool" {
        messages := Flush(messages, "user", [ToolResult(msg.answers, ResultContent(codec, msg.content))]);
      }
    }
    assert msgs[..|msgs|] == msgs;
    out := AnthropicRequest(JoinLines(system), messages);
  }

  // ----- The normal form is the only one -----

  lemma FlattenLast(messages: seq<AnthropicMessage>)
    requires messages != []
    ensures
      var last := messages[|messages| - 1];
      Flatten(messages) == Flatten(messages[..|messages| - 1]) + Tag(last.role, last.blocks)
  {
  }

  lemma LastGroups(a: seq<Tagged>, own: seq<Block>, b: seq<Tagged>, theirs: seq<Block>, role: string)
    requires a + Tag(role, own) == b + Tag(role, theirs)
    requires a != [] ==> a[|a| - 1].role != role
    requires b != [] ==> b[|b| - 1].role != role
    ensures a == b && own == theirs
  {
    NotShorter(a, own, b, theirs, role);
    NotShorter(b, theirs, a, own, role);
    var all := a + Tag(role, own);
    assert a == all[..|a|] && b == all[..|b|];
    assert Tag(role, own) == all[|a|..] && Tag(role, theirs) == all[|b|..];
    TagInjective(role, own, theirs);
  }

  /** The list ends with at least the role's whole last group. */
  lemma NotShorter(a: seq<Tagged>, own: seq<Block>, b: seq<Tagged>, theirs: seq<Block>, role: string)
    requires a + Tag(role, own) == b + Tag(role, theirs)
    requires a != [] ==> a[|a| - 1].role != role
    ensures |a| <= |b|
  {
    var all := b + Tag(role, theirs);
    assert forall i :: |b| <= i < |all| ==> all[i].role == role;
    assert a != [] ==> all[|a| - 1] == a[|a| - 1];
  }

  lemma TagInjective(role: string, own: seq<Block>, theirs: seq<Block>)
    requires Tag(role, own) == Tag(role, theirs)
    ensures own == theirs
  {
    forall i | 0 <= i < |own| ensures own[i] == theirs[i] {
      assert Tag(role, own)[i] == Tag(role, theirs)[i];
    }
  }

  lemma FlattenEnds(messages: seq<AnthropicMessage>)
    requires NormalForm(messages) && messages != []
    ensures Flatten(messages) != [] && Flatten(messages)[|Flatten(messages)| - 1].role == messages[|messages| - 1].role
  {
    FlattenLast(messages);
  }

  /** Two conversations in normal form with the same blocks in the same order are the same. */
  lemma {:induction false} NormalFormUnique(a: seq<AnthropicMessage>, b: seq<AnthropicMessage>)
    requires NormalForm(a) && NormalForm(b) && Flatten(a) == Flatten(b)
    ensures a == b
  {
    if a != [] { FlattenEnds(a); }
    if b != [] { FlattenEnds(b); }
    if a != [] && b != [] {
      var af, al, bf, bl := a[..|a| - 1], a[|a| - 1], b[..|b| - 1], b[|b| - 1];
      FlattenLast(a);
      FlattenLast(b);
      if af != [] { FlattenEnds(af); }
      if bf != [] { FlattenEnds(bf); }
      LastGroups(Flatten(af), al.blocks, Flatten(bf), bl.blocks, al.role);
      NormalFormUnique(af, bf);
    }
  }

  // ----- Anthropic to Chat -----

  function TextIn(b: Block): seq<string> {
    if b.TextBlock? then Nonempty(b.text) else []
  }

  function ChatCallIn(codec: Codec, b: Block): seq<ChatCall> {
    if b.ToolUse? && !Blank(b.name) then
      var arguments := if b.input.Some? then codec.render(b.input.value) else EMPTY_OBJECT;
      [ChatCall(IdOf(b.id, b.drawn), TrimSpace(b.name), arguments, "")]
    else []
  }

  function ThoughtIn(b: Block): seq<string> {
    if b.Thinking? then Nonempty(b.text) else []
  }

  /** The content of a tool message; a text that comes out empty is written as JSON instead. */
  function ToolContent(codec: Codec, content: Content): Content {
    match content
    case NoContent => NoContent
    case Str(text) => Str(if text == "" then EMPTY_STRING else text)
    case Parts(parts) =>
      var blocks := TypedOnly(parts);
      if blocks == [] then content
      else
        var text := JoinLines(Texts(Parts(blocks)));
        Str(if text == "" then codec.renderParts(parts) else text)
  }

  /** The items that are objects. */
  function TypedOnly(parts: seq<Part>): seq<Part> {
    Collect(parts, (p: Part) => if p.Typed? then [p] else [])
  }

  function ToolMessageIn(codec: Codec, b: Block): seq<ChatMessage> {
    if b.ToolResult? then [ChatMessage("tool", ToolContent(codec, b.content), [], b.id, "")] else []
  }

  function ContentOf(texts: seq<string>): Content {
    if texts == [] then NoContent else if |texts| == 1 then Str(texts[0]) else Parts(TypedParts(texts))
  }

  /** What a message's blocks hold of each kind, in order. */
  datatype Sorted = Sorted(texts: seq<string>, calls: seq<ChatCall>, thoughts: seq<string>, results: seq<ChatMessage>)

  function SortedBlocks(codec: Codec, blocks: seq<Block>): Sorted {
    Sorted(Collect(blocks, TextIn), Collect(blocks, (b: Block) => ChatCallIn(codec, b)),
           Collect(blocks, ThoughtIn), Collect(blocks, (b: Block) => ToolMessageIn(codec, b)))
  }

  /** The message's own text and calls come first, its tool results after it. */
  function ChatOf(role: string, s: Sorted): seq<ChatMessage> {
    (if s.texts == [] && s.calls == [] && s.thoughts == [] then []
     else [ChatMessage(role, ContentOf(s.texts), s.calls, "", JoinLines(s.thoughts))])
    + s.results
  }

  function ChatFor(codec: Codec, m: AnthropicMessage): seq<ChatMessage> {
    if IsTurn(m.role) then ChatOf(m.role, SortedBlocks(codec, m.blocks)) else []
  }

  function SystemMessage(system: string): seq<ChatMessage> {
    if system == "" then [] else [ChatMessage("system", Str(system), [], "", "")]
  }

  function ChatForAll(codec: Codec, messages: seq<AnthropicMessage>): seq<ChatMessage> {
    Collect(messages, (m: AnthropicMessage) => ChatFor(codec, m))
  }

  method SortBlocks(codec: Codec, blocks: seq<Block>) returns (s: Sorted)
    ensures s == SortedBlocks(codec, blocks)
  {
    s := Sorted([], [], [], []);
    for i := 0 to |blocks|
      invariant s == SortedBlocks(codec, blocks[..i])
    {
      var b := blocks[i];
      assert blocks[..i + 1][..i] == blocks[..i];
      match b
      case TextBlock(text) =>
        if text != "" { s := s.(texts := s.texts + [text]); }
      case ToolUse(id, name, input, drawn) =>
        if TrimSpace(name) == "" { continue; }
        var args := if input.Some? then codec.render(input.value) else EMPTY_OBJECT;
        s := s.(calls := s.calls + [ChatCall(IdOf(id, drawn), TrimSpace(name), args, "")]);
      case ToolResult(id, content) =>
        s := s.(results := s.results + [ChatMessage("tool", ToolContent(codec, content), [], id, "")]);
      case Thinking(text) =>
        if text != "" { s := s.(thoughts := s.thoughts + [text]); }
    }
    assert blocks[..|blocks|] == blocks;
  }

  method TranslateMessage(codec: Codec, msg: AnthropicMessage) returns (out: seq<ChatMessage>)
    ensures out == ChatFor(codec, msg)
  {
    out := [];
    if !IsTurn(msg.role) { return; }
    var s := SortBlocks(codec, msg.blocks);
    if s.texts != [] || s.calls != [] || s.thoughts != [] {
      out := [ChatMessage(msg.role, ContentOf(s.texts), s.calls, "", JoinLines(s.thoughts))];
    }
    out := out + s.results;
  }

  method TranslateAnthropicToChat(codec: Codec, req: AnthropicRequest) returns (out: seq<ChatMessage>)
    ensures out == SystemMessage(req.system) + ChatForAll(codec, req.messages)
  {
    out := if req.system != "" then [ChatMessage("system", Str(req.system), [], "", "")] else [];
    for i := 0 to |req.messages|
      invariant out == SystemMessage(req.system) + ChatForAll(codec, req.messages[..i])
    {
      var own := TranslateMessage(codec, req.messages[i]);
      ChatForSnoc(codec, req.messages, i);
      Assoc(SystemMessage(req.system), ChatForAll(codec, req.messages[..i]), own);
      out := out + own;
    }
    assert req.messages[..|req.messages|] == req.messages;
  }

  lemma ChatForSnoc(codec: Codec, messages: seq<AnthropicMessage>, i: nat)
    requires i < |messages|
    ensures ChatForAll(codec, messages[..i + 1]) == ChatForAll(codec, messages[..i]) + ChatFor(codec, messages[i])
  {
    assert messages[..i + 1][..i] == messages[..i];
  }
}
