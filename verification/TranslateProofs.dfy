/**
 * What request translation keeps: who said what, the tool calls and the tool
 * results, each in order, there, back, and there and back; and every tool
 * result stays behind its call.
 */
module TranslateProofs {
  import opened Basics
  import opened Text
  import opened Translate

  // ----- What an Anthropic conversation says -----

  function SaidIn(t: Tagged): seq<Said> {
    if t.block.TextBlock? then Saying(t.role, Nonempty(t.block.text)) else []
  }

  function InputText(codec: Codec, input: Option<Json>): string {
    if input.Some? then codec.render(input.value) else EMPTY_OBJECT
  }

  function CalledIn(codec: Codec, b: Block): seq<Call> {
    if b.ToolUse? && !Blank(b.name) then
      [Call(IdOf(b.id, b.drawn), TrimSpace(b.name), ToolArguments(codec, InputText(codec, b.input)))]
    else []
  }

  function AnsweredIn(codec: Codec, b: Block): seq<Answer> {
    if b.ToolResult? then [Answer(b.id, AnswerText(codec, ToolContent(codec, b.content)))] else []
  }

  /** Messages of other roles are not part of the conversation. */
  function TurnBlocks(m: AnthropicMessage): seq<Tagged> {
    if IsTurn(m.role) then Tag(m.role, m.blocks) else []
  }

  function Turns(messages: seq<AnthropicMessage>): seq<Tagged> {
    Collect(messages, TurnBlocks)
  }

  function SaidAmong(blocks: seq<Tagged>): seq<Said> {
    Collect(blocks, SaidIn)
  }

  function CalledAmong(codec: Codec, blocks: seq<Tagged>): seq<Call> {
    Collect(blocks, (t: Tagged) => CalledIn(codec, t.block))
  }

  function AnsweredAmong(codec: Codec, blocks: seq<Tagged>): seq<Answer> {
    Collect(blocks, (t: Tagged) => AnsweredIn(codec, t.block))
  }

  lemma AmongAppend(codec: Codec, a: seq<Tagged>, b: seq<Tagged>)
    ensures SaidAmong(a + b) == SaidAmong(a) + SaidAmong(b)
    ensures CalledAmong(codec, a + b) == CalledAmong(codec, a) + CalledAmong(codec, b)
    ensures AnsweredAmong(codec, a + b) == AnsweredAmong(codec, a) + AnsweredAmong(codec, b)
  {
    CollectAppend(a, b, SaidIn);
    CollectAppend(a, b, (t: Tagged) => CalledIn(codec, t.block));
    CollectAppend(a, b, (t: Tagged) => AnsweredIn(codec, t.block));
  }

  lemma ChatAppend(codec: Codec, a: seq<ChatMessage>, b: seq<ChatMessage>)
    ensures ChatSaid(a + b) == ChatSaid(a) + ChatSaid(b)
    ensures ChatCalled(codec, a + b) == ChatCalled(codec, a) + ChatCalled(codec, b)
    ensures ChatAnswered(codec, a + b) == ChatAnswered(codec, a) + ChatAnswered(codec, b)
  {
    CollectAppend(a, b, SaidBy);
    CollectAppend(a, b, (m: ChatMessage) => CalledBy(codec, m));
    CollectAppend(a, b, (m: ChatMessage) => AnsweredBy(codec, m));
  }

  // ----- Texts -----

  ghost predicate Speaking(texts: seq<string>) {
    forall i :: 0 <= i < |texts| ==> texts[i] != ""
  }

  lemma {:induction false} TypedTexts(texts: seq<string>)
    requires Speaking(texts)
    ensures Texts(Parts(TypedParts(texts))) == texts
  {
    if texts != [] {
      var front, last := texts[..|texts| - 1], texts[|texts| - 1];
      TypedTexts(front);
      assert TypedParts(texts) == TypedParts(front) + [Typed(last)];
      CollectSnoc(TypedParts(front), Typed(last), (p: Part) => Nonempty(p.text));
    }
  }

  lemma {:induction false} PartTextsSpeak(parts: seq<Part>)
    ensures Speaking(Collect(parts, (p: Part) => Nonempty(p.text)))
  {
    if parts != [] { PartTextsSpeak(parts[..|parts| - 1]); }
  }

  lemma TextsSpeak(content: Content)
    ensures Speaking(Texts(content))
  {
    if content.Parts? { PartTextsSpeak(content.parts); }
  }

  lemma {:induction false} BlockTextsSpeak(blocks: seq<Block>)
    ensures Speaking(Collect(blocks, TextIn))
  {
    if blocks != [] { BlockTextsSpeak(blocks[..|blocks| - 1]); }
  }

  lemma ContentTexts(texts: seq<string>)
    requires Speaking(texts)
    ensures Texts(ContentOf(texts)) == texts
  {
    if |texts| > 1 { TypedTexts(texts); }
  }

  lemma {:induction false} JoinSpeaks(texts: seq<string>)
    requires Speaking(texts) && texts != []
    ensures JoinLines(texts) != ""
  {
    if |texts| > 1 { JoinSpeaks(texts[..|texts| - 1]); }
  }

  lemma SayingAppend(role: string, a: seq<string>, b: seq<string>)
    ensures Saying(role, a + b) == Saying(role, a) + Saying(role, b)
  {
  }

  // ----- Anthropic to Chat -----

  /** The texts of a message's blocks, one by one or sorted out. */
  lemma {:induction false} SaidSorted(role: string, blocks: seq<Block>)
    ensures SaidAmong(Tag(role, blocks)) == Saying(role, Collect(blocks, TextIn))
  {
    if blocks != [] {
      var front, last := blocks[..|blocks| - 1], blocks[|blocks| - 1];
      SaidSorted(role, front);
      assert Tag(role, blocks) == Tag(role, front) + [Tagged(role, last)];
      CollectSnoc(Tag(role, front), Tagged(role, last), SaidIn);
      SayingAppend(role, Collect(front, TextIn), TextIn(last));
    }
  }

  /** A trimmed name that is not blank stays as it is when trimmed again. */
  lemma NameSurvives(name: string)
    ensures Blank(TrimSpace(name)) <==> Blank(name)
    ensures TrimSpace(TrimSpace(name)) == TrimSpace(name)
  {
    TrimIsTrimmed(name, IS_SPACE);
    TrimIsTrimmed(TrimSpace(name), IS_SPACE);
  }

  lemma IdSurvives(id: string, drawn: string)
    ensures IdOf(IdOf(id, drawn), "") == IdOf(id, drawn)
  {
    assert |"call_" + drawn| > 0;
  }

  lemma ArgumentsSurvive(codec: Codec, input: Option<Json>)
    requires Lawful(codec)
    ensures InputText(codec, input) != ""
  {
    assert |EMPTY_OBJECT| == 2;
  }

  lemma CallSurvives(codec: Codec, b: Block)
    requires Lawful(codec)
    ensures CallsOf(codec, ChatCallIn(codec, b)) == CalledIn(codec, b)
  {
    if b.ToolUse? && !Blank(b.name) {
      var c := ChatCallIn(codec, b)[0];
      NameSurvives(b.name);
      IdSurvives(b.id, b.drawn);
      ArgumentsSurvive(codec, b.input);
      CollectOne(c, (c: ChatCall) => CallOf(codec, c));
    }
  }

  lemma CallsOfAppend(codec: Codec, a: seq<ChatCall>, b: seq<ChatCall>)
    ensures CallsOf(codec, a + b) == CallsOf(codec, a) + CallsOf(codec, b)
  {
    CollectAppend(a, b, (c: ChatCall) => CallOf(codec, c));
  }

  lemma CalledAmongSnoc(codec: Codec, role: string, front: seq<Block>, last: Block)
    ensures
      CalledAmong(codec, Tag(role, front + [last])) == CalledAmong(codec, Tag(role, front)) + CalledIn(codec, last)
  {
    assert Tag(role, front + [last]) == Tag(role, front) + [Tagged(role, last)];
    CollectSnoc(Tag(role, front), Tagged(role, last), (t: Tagged) => CalledIn(codec, t.block));
  }

  lemma CallsInSnoc(codec: Codec, front: seq<Block>, last: Block)
    ensures SortedBlocks(codec, front + [last]).calls == SortedBlocks(codec, front).calls + ChatCallIn(codec, last)
  {
    CollectSnoc(front, last, (b: Block) => ChatCallIn(codec, b));
  }

  lemma {:induction false} CalledSorted(codec: Codec, role: string, blocks: seq<Block>)
    requires Lawful(codec)
    ensures CalledAmong(codec, Tag(role, blocks)) == CallsOf(codec, SortedBlocks(codec, blocks).calls)
  {
    if blocks != [] {
      var front, last := blocks[..|blocks| - 1], blocks[|blocks| - 1];
      assert blocks == front + [last];
      CalledSorted(codec, role, front);
      CalledAmongSnoc(codec, role, front, last);
      CallsInSnoc(codec, front, last);
      CallSurvives(codec, last);
      CallsOfAppend(codec, SortedBlocks(codec, front).calls, ChatCallIn(codec, last));
    }
  }

  /** Tool messages hold answers only. */
  lemma {:induction false} ResultsAnswer(codec: Codec, role: string, blocks: seq<Block>)
    ensures
      var results := SortedBlocks(codec, blocks).results;
      && ChatSaid(results) == [] && ChatCalled(codec, results) == []
      && ChatAnswered(codec, results) == AnsweredAmong(codec, Tag(role, blocks))
  {
    if blocks != [] {
      var front, last := blocks[..|blocks| - 1], blocks[|blocks| - 1];
      assert blocks == front + [last];
      ResultsAnswer(codec, role, front);
      AnsweredSnoc(codec, role, front, last);
      ChatAppend(codec, SortedBlocks(codec, front).results, ToolMessageIn(codec, last));
      ToolMessageAnswers(codec, last);
    }
  }

  lemma AnsweredSnoc(codec: Codec, role: string, front: seq<Block>, last: Block)
    ensures
      AnsweredAmong(codec, Tag(role, front + [last])) ==
        AnsweredAmong(codec, Tag(role, front)) + AnsweredIn(codec, last)
    ensures
      SortedBlocks(codec, front + [last]).results == SortedBlocks(codec, front).results + ToolMessageIn(codec, last)
  {
    assert Tag(role, front + [last]) == Tag(role, front) + [Tagged(role, last)];
    CollectSnoc(Tag(role, front), Tagged(role, last), (t: Tagged) => AnsweredIn(codec, t.block));
    CollectSnoc(front, last, (b: Block) => ToolMessageIn(codec, b));
  }

  lemma ToolMessageAnswers(codec: Codec, b: Block)
    ensures
      var own := ToolMessageIn(codec, b);
      ChatSaid(own) == [] && ChatCalled(codec, own) == [] && ChatAnswered(codec, own) == AnsweredIn(codec, b)
  {
    OneMessage(codec, ToolMessageIn(codec, b));
  }

  lemma OneMessage(codec: Codec, msgs: seq<ChatMessage>)
    requires |msgs| <= 1
    ensures ChatSaid(msgs) == if msgs == [] then [] else SaidBy(msgs[0])
    ensures ChatCalled(codec, msgs) == if msgs == [] then [] else CalledBy(codec, msgs[0])
    ensures ChatAnswered(codec, msgs) == if msgs == [] then [] else AnsweredBy(codec, msgs[0])
  {
    if msgs != [] {
      var m := msgs[0];
      assert msgs == [m];
      CollectOne(m, SaidBy);
      CollectOne(m, (m: ChatMessage) => CalledBy(codec, m));
      CollectOne(m, (m: ChatMessage) => AnsweredBy(codec, m));
    }
  }

  /** The message itself, before its tool results. */
  lemma OwnKeeps(codec: Codec, role: string, blocks: seq<Block>, own: seq<ChatMessage>)
    requires Lawful(codec) && IsTurn(role)
    requires
      var s := SortedBlocks(codec, blocks);
      own == if s.texts == [] && s.calls == [] && s.thoughts == [] then []
        else [ChatMessage(role, ContentOf(s.texts), s.calls, "", JoinLines(s.thoughts))]
    ensures ChatSaid(own) == SaidAmong(Tag(role, blocks))
    ensures ChatCalled(codec, own) == CalledAmong(codec, Tag(role, blocks))
    ensures ChatAnswered(codec, own) == []
  {
    var s := SortedBlocks(codec, blocks);
    OneMessage(codec, own);
    BlockTextsSpeak(blocks);
    ContentTexts(s.texts);
    SaidSorted(role, blocks);
    CalledSorted(codec, role, blocks);
  }

  /** One message keeps all it says, though its tool results move behind its text. */
  lemma MessageKeeps(codec: Codec, m: AnthropicMessage)
    requires Lawful(codec)
    ensures ChatSaid(ChatFor(codec, m)) == SaidAmong(TurnBlocks(m))
    ensures ChatCalled(codec, ChatFor(codec, m)) == CalledAmong(codec, TurnBlocks(m))
    ensures ChatAnswered(codec, ChatFor(codec, m)) == AnsweredAmong(codec, TurnBlocks(m))
  {
    if IsTurn(m.role) {
      var s := SortedBlocks(codec, m.blocks);
      var own := if s.texts == [] && s.calls == [] && s.thoughts == [] then []
        else [ChatMessage(m.role, ContentOf(s.texts), s.calls, "", JoinLines(s.thoughts))];
      ChatAppend(codec, own, s.results);
      OwnKeeps(codec, m.role, m.blocks, own);
      ResultsAnswer(codec, m.role, m.blocks);
    }
  }

  lemma {:induction false} MessagesKeep(codec: Codec, messages: seq<AnthropicMessage>)
    requires Lawful(codec)
    ensures ChatSaid(ChatForAll(codec, messages)) == SaidAmong(Turns(messages))
    ensures ChatCalled(codec, ChatForAll(codec, messages)) == CalledAmong(codec, Turns(messages))
    ensures ChatAnswered(codec, ChatForAll(codec, messages)) == AnsweredAmong(codec, Turns(messages))
  {
    if messages != [] {
      var front, last := messages[..|messages| - 1], messages[|messages| - 1];
      MessagesKeep(codec, front);
      MessageKeeps(codec, last);
      ChatAppend(codec, ChatForAll(codec, front), ChatFor(codec, last));
      AmongAppend(codec, Turns(front), TurnBlocks(last));
    }
  }

  /** Anthropic to Chat keeps what is said, the calls and the results, each in order; a system text adds no turn. */
  lemma AnthropicToChatKeeps(codec: Codec, req: AnthropicRequest)
    requires Lawful(codec)
    ensures
      var out := SystemMessage(req.system) + ChatForAll(codec, req.messages);
      && ChatSaid(out) == SaidAmong(Turns(req.messages))
      && ChatCalled(codec, out) == CalledAmong(codec, Turns(req.messages))
      && ChatAnswered(codec, out) == AnsweredAmong(codec, Turns(req.messages))
  {
    MessagesKeep(codec, req.messages);
    ChatAppend(codec, SystemMessage(req.system), ChatForAll(codec, req.messages));
    OneMessage(codec, SystemMessage(req.system));
  }

  // ----- Chat to Anthropic -----

  lemma {:induction false} TextBlocksSay(codec: Codec, role: string, texts: seq<string>)
    requires Speaking(texts)
    ensures SaidAmong(Tag(role, TextBlocks(texts))) == Saying(role, texts)
    ensures CalledAmong(codec, Tag(role, TextBlocks(texts))) == []
    ensures AnsweredAmong(codec, Tag(role, TextBlocks(texts))) == []
  {
    if texts != [] {
      var front, last := texts[..|texts| - 1], texts[|texts| - 1];
      TextBlocksSay(codec, role, front);
      assert Tag(role, TextBlocks(texts)) == Tag(role, TextBlocks(front)) + Tag(role, [TextBlock(last)]);
      AmongAppend(codec, Tag(role, TextBlocks(front)), Tag(role, [TextBlock(last)]));
      OneBlock(codec, role, TextBlock(last));
      SayingAppend(role, front, [last]);
      assert texts == front + [last];
    }
  }

  lemma OneBlock(codec: Codec, role: string, b: Block)
    ensures SaidAmong(Tag(role, [b])) == SaidIn(Tagged(role, b))
    ensures CalledAmong(codec, Tag(role, [b])) == CalledIn(codec, b)
    ensures AnsweredAmong(codec, Tag(role, [b])) == AnsweredIn(codec, b)
  {
    assert Tag(role, [b]) == [] + [Tagged(role, b)];
    CollectSnoc([], Tagged(role, b), SaidIn);
    CollectSnoc([], Tagged(role, b), (t: Tagged) => CalledIn(codec, t.block));
    CollectSnoc([], Tagged(role, b), (t: Tagged) => AnsweredIn(codec, t.block));
  }

  /** An object given as input is printed and read back. */
  lemma InputSurvives(codec: Codec, arguments: string)
    requires Lawful(codec)
    ensures
      var v := ToolArguments(codec, arguments);
      v.Object? && ToolArguments(codec, codec.render(v)) == v
  {
    var v := ToolArguments(codec, arguments);
    assert codec.parse(codec.render(v)) == Some(v);
  }

  lemma UseSays(codec: Codec, role: string, c: ChatCall)
    requires Lawful(codec)
    ensures SaidAmong(Tag(role, ToolUseOf(codec, c))) == []
    ensures CalledAmong(codec, Tag(role, ToolUseOf(codec, c))) == CallOf(codec, c)
    ensures AnsweredAmong(codec, Tag(role, ToolUseOf(codec, c))) == []
  {
    if !Blank(c.name) {
      var b := ToolUseOf(codec, c)[0];
      assert ToolUseOf(codec, c) == [b];
      OneBlock(codec, role, b);
      UseReads(codec, c, b);
    }
  }

  lemma UseReads(codec: Codec, c: ChatCall, b: Block)
    requires Lawful(codec) && ToolUseOf(codec, c) == [b]
    ensures CalledIn(codec, b) == CallOf(codec, c) && b.ToolUse?
  {
    NameSurvives(c.name);
    IdSurvives(c.id, c.drawn);
    InputSurvives(codec, if c.arguments == "" then EMPTY_OBJECT else c.arguments);
  }

  lemma {:induction false} UsesSay(codec: Codec, role: string, calls: seq<ChatCall>)
    requires Lawful(codec)
    ensures SaidAmong(Tag(role, ToolUses(codec, calls))) == []
    ensures CalledAmong(codec, Tag(role, ToolUses(codec, calls))) == CallsOf(codec, calls)
    ensures AnsweredAmong(codec, Tag(role, ToolUses(codec, calls))) == []
  {
    if calls != [] {
      var front, last := calls[..|calls| - 1], calls[|calls| - 1];
      UsesSay(codec, role, front);
      UseSays(codec, role, last);
      assert Tag(role, ToolUses(codec, calls)) == Tag(role, ToolUses(codec, front)) + Tag(role, ToolUseOf(codec, last));
      AmongAppend(codec, Tag(role, ToolUses(codec, front)), Tag(role, ToolUseOf(codec, last)));
    }
  }

  /** An empty result comes back as the two quotes of an empty JSON string. */
  function Shown(a: Answer): Answer {
    if a.text == "" then a.(text := EMPTY_STRING) else a
  }

  lemma ResultSurvives(codec: Codec, content: Content)
    requires Lawful(codec)
    ensures
      var text := AnswerText(codec, content);
      AnswerText(codec, ToolContent(codec, ResultContent(codec, content))) == if text == "" then EMPTY_STRING else text
  {
    if content.Parts? && Texts(content) != [] {
      var texts := Texts(content);
      TextsSpeak(content);
      JoinSpeaks(texts);
      TypedTexts(texts);
      AllTyped(texts);
    }
  }

  lemma {:induction false} AllTyped(texts: seq<string>)
    ensures TypedOnly(TypedParts(texts)) == TypedParts(texts)
  {
    if texts != [] {
      var front, last := texts[..|texts| - 1], texts[|texts| - 1];
      AllTyped(front);
      assert TypedParts(texts) == TypedParts(front) + [Typed(last)];
      CollectSnoc(TypedParts(front), Typed(last), (p: Part) => if p.Typed? then [p] else []);
    }
  }

  lemma ExpansionSays(codec: Codec, m: ChatMessage)
    requires Lawful(codec)
    ensures SaidAmong(Expansion(codec, m)) == SaidBy(m)
    ensures CalledAmong(codec, Expansion(codec, m)) == CalledBy(codec, m)
    ensures AnsweredAmong(codec, Expansion(codec, m)) == ShownAll(AnsweredBy(codec, m))
  {
    if IsTurn(m.role) {
      var texts, uses := TextBlocks(Texts(m.content)), ToolUses(codec, m.calls);
      assert Expansion(codec, m) == Tag(m.role, texts) + Tag(m.role, uses);
      AmongAppend(codec, Tag(m.role, texts), Tag(m.role, uses));
      TextsSpeak(m.content);
      TextBlocksSay(codec, m.role, Texts(m.content));
      UsesSay(codec, m.role, m.calls);
    } else if m.role == "tool" {
      OneBlock(codec, "user", ToolResult(m.answers, ResultContent(codec, m.content)));
      assert Expansion(codec, m) == Tag("user", [ToolResult(m.answers, ResultContent(codec, m.content))]);
      ResultSurvives(codec, m.content);
    }
  }

  function ShownAll(answers: seq<Answer>): (r: seq<Answer>)
    ensures |r| == |answers| && forall i :: 0 <= i < |r| ==> r[i] == Shown(answers[i])
  {
    seq(|answers|, i requires 0 <= i < |answers| => Shown(answers[i]))
  }

  lemma {:induction false} ExpansionsSay(codec: Codec, msgs: seq<ChatMessage>)
    requires Lawful(codec)
    ensures SaidAmong(Expansions(codec, msgs)) == ChatSaid(msgs)
    ensures CalledAmong(codec, Expansions(codec, msgs)) == ChatCalled(codec, msgs)
    ensures AnsweredAmong(codec, Expansions(codec, msgs)) == ShownAll(ChatAnswered(codec, msgs))
  {
    if msgs != [] {
      var front, last := msgs[..|msgs| - 1], msgs[|msgs| - 1];
      ExpansionsSay(codec, front);
      ExpansionSays(codec, last);
      AmongAppend(codec, Expansions(codec, front), Expansion(codec, last));
    }
  }

  ghost predicate TurnsOnly(blocks: seq<Tagged>) {
    forall i :: 0 <= i < |blocks| ==> IsTurn(blocks[i].role)
  }

  lemma ExpansionIsTurn(codec: Codec, m: ChatMessage)
    ensures TurnsOnly(Expansion(codec, m))
  {
  }

  lemma {:induction false} ExpansionsAreTurns(codec: Codec, msgs: seq<ChatMessage>)
    ensures TurnsOnly(Expansions(codec, msgs))
  {
    if msgs != [] {
      ExpansionsAreTurns(codec, msgs[..|msgs| - 1]);
      ExpansionIsTurn(codec, msgs[|msgs| - 1]);
    }
  }

  lemma {:induction false} AllTurns(messages: seq<AnthropicMessage>)
    requires TurnsOnly(Flatten(messages))
    ensures Turns(messages) == Flatten(messages)
  {
    if messages != [] {
      var front, last := messages[..|messages| - 1], messages[|messages| - 1];
      FlattenLast(messages);
      forall i | 0 <= i < |Flatten(front)| ensures IsTurn(Flatten(front)[i].role) {
        assert Flatten(messages)[i] == Flatten(front)[i];
      }
      AllTurns(front);
      if last.blocks != [] {
        assert Flatten(messages)[|Flatten(front)|] == Tagged(last.role, last.blocks[0]);
      }
    }
  }

  /**
   * Chat to Anthropic and back: the texts with their speakers, the tool calls
   * and the tool results are those of the conversation, each in order, except
   * that an empty tool result comes back as the text of an empty JSON string.
   */
  lemma RoundTrip(codec: Codec, msgs: seq<ChatMessage>, mid: AnthropicRequest)
    requires Lawful(codec) && Flatten(mid.messages) == Expansions(codec, msgs)
    ensures
      var back := SystemMessage(mid.system) + ChatForAll(codec, mid.messages);
      && ChatSaid(back) == ChatSaid(msgs)
      && ChatCalled(codec, back) == ChatCalled(codec, msgs)
      && ChatAnswered(codec, back) == ShownAll(ChatAnswered(codec, msgs))
      && (ChatAnswered(codec, back) == ChatAnswered(codec, msgs) <==>
            forall i :: 0 <= i < |ChatAnswered(codec, msgs)| ==> ChatAnswered(codec, msgs)[i].text != "")
  {
    ExpansionsSay(codec, msgs);
    ExpansionsAreTurns(codec, msgs);
    AllTurns(mid.messages);
    AnthropicToChatKeeps(codec, mid);
    ShownIsSame(ChatAnswered(codec, msgs));
  }

  lemma ShownIsSame(answers: seq<Answer>)
    ensures ShownAll(answers) == answers <==> forall i :: 0 <= i < |answers| ==> answers[i].text != ""
  {
    if ShownAll(answers) == answers {
      forall i | 0 <= i < |answers| ensures answers[i].text != "" {
        assert ShownAll(answers)[i] == Shown(answers[i]);
      }
    }
  }

  // ----- Results stay behind their calls -----

  datatype Event = Calls(id: string) | Answers(id: string)

  /** Every result has its call before it. */
  ghost predicate AnswersFollow(events: seq<Event>) {
    forall j :: 0 <= j < |events| && events[j].Answers? ==> Calls(events[j].id) in events[..j]
  }

  function CallEvents(calls: seq<ChatCall>): seq<Event> {
    Collect(calls, (c: ChatCall) => if Blank(c.name) then [] else [Calls(IdOf(c.id, c.drawn))])
  }

  function EventsBy(m: ChatMessage): seq<Event> {
    if IsTurn(m.role) then CallEvents(m.calls)
    else if m.role == "tool" then [Answers(m.answers)]
    else []
  }

  function ChatEvents(msgs: seq<ChatMessage>): seq<Event> {
    Collect(msgs, EventsBy)
  }

  function EventIn(t: Tagged): seq<Event> {
    if t.block.ToolUse? && !Blank(t.block.name) then [Calls(IdOf(t.block.id, t.block.drawn))]
    else if t.block.ToolResult? then [Answers(t.block.id)]
    else []
  }

  function EventsAmong(blocks: seq<Tagged>): seq<Event> {
    Collect(blocks, EventIn)
  }

  lemma {:induction false} TextBlocksAreSilent(role: string, texts: seq<string>)
    ensures EventsAmong(Tag(role, TextBlocks(texts))) == []
  {
    if texts != [] {
      var front, last := texts[..|texts| - 1], texts[|texts| - 1];
      TextBlocksAreSilent(role, front);
      assert Tag(role, TextBlocks(texts)) == Tag(role, TextBlocks(front)) + [Tagged(role, TextBlock(last))];
      CollectSnoc(Tag(role, TextBlocks(front)), Tagged(role, TextBlock(last)), EventIn);
    }
  }

  lemma {:induction false} UsesAreCalls(codec: Codec, role: string, calls: seq<ChatCall>)
    ensures EventsAmong(Tag(role, ToolUses(codec, calls))) == CallEvents(calls)
  {
    if calls != [] {
      var front, last := calls[..|calls| - 1], calls[|calls| - 1];
      UsesAreCalls(codec, role, front);
      if Blank(last.name) {
        assert Tag(role, ToolUses(codec, calls)) == Tag(role, ToolUses(codec, front));
      } else {
        var use := Tagged(role, ToolUseOf(codec, last)[0]);
        assert Tag(role, ToolUses(codec, calls)) == Tag(role, ToolUses(codec, front)) + [use];
        CollectSnoc(Tag(role, ToolUses(codec, front)), use, EventIn);
        IdSurvives(last.id, last.drawn);
        NameSurvives(last.name);
      }
    }
  }

  /** Chat to Anthropic keeps the order of calls and results exactly. */
  lemma {:induction false} ChatToAnthropicKeepsEvents(codec: Codec, msgs: seq<ChatMessage>)
    ensures EventsAmong(Expansions(codec, msgs)) == ChatEvents(msgs)
  {
    if msgs != [] {
      var front, m := msgs[..|msgs| - 1], msgs[|msgs| - 1];
      ChatToAnthropicKeepsEvents(codec, front);
      CollectAppend(Expansions(codec, front), Expansion(codec, m), EventIn);
      ExpansionEvents(codec, m);
    }
  }

  lemma ExpansionEvents(codec: Codec, m: ChatMessage)
    ensures EventsAmong(Expansion(codec, m)) == EventsBy(m)
  {
    if IsTurn(m.role) {
      var texts, uses := TextBlocks(Texts(m.content)), ToolUses(codec, m.calls);
      assert Expansion(codec, m) == Tag(m.role, texts) + Tag(m.role, uses);
      CollectAppend(Tag(m.role, texts), Tag(m.role, uses), EventIn);
      TextBlocksAreSilent(m.role, Texts(m.content));
      UsesAreCalls(codec, m.role, m.calls);
    } else if m.role == "tool" {
      CollectOne(Tagged("user", ToolResult(m.answers, ResultContent(codec, m.content))), EventIn);
    }
  }

  function OnlyCalls(events: seq<Event>): seq<Event> {
    Collect(events, (e: Event) => if e.Calls? then [e] else [])
  }

  function OnlyAnswers(events: seq<Event>): seq<Event> {
    Collect(events, (e: Event) => if e.Answers? then [e] else [])
  }

  lemma {:induction false} OnlyMembers(events: seq<Event>)
    ensures forall e :: e in OnlyCalls(events) <==> e in events && e.Calls?
    ensures forall e :: e in OnlyAnswers(events) <==> e in events && e.Answers?
  {
    if events != [] { OnlyMembers(events[..|events| - 1]); }
  }

  /** One message translated back has its calls first, then its results. */
  lemma {:induction false} SortedEvents(codec: Codec, role: string, blocks: seq<Block>)
    ensures
      var s, events := SortedBlocks(codec, blocks), EventsAmong(Tag(role, blocks));
      CallEvents(s.calls) == OnlyCalls(events) && ChatEvents(s.results) == OnlyAnswers(events)
  {
    if blocks != [] {
      var front, last := blocks[..|blocks| - 1], blocks[|blocks| - 1];
      SortedEvents(codec, role, front);
      var t := Tagged(role, last);
      assert Tag(role, blocks) == Tag(role, front) + [t];
      CollectSnoc(Tag(role, front), t, EventIn);
      var s, events := SortedBlocks(codec, front), EventsAmong(Tag(role, front));
      CollectAppend(events, EventIn(t), (e: Event) => if e.Calls? then [e] else []);
      CollectAppend(events, EventIn(t), (e: Event) => if e.Answers? then [e] else []);
      CollectAppend(s.calls, ChatCallIn(codec, last),
        (c: ChatCall) => if Blank(c.name) then [] else [Calls(IdOf(c.id, c.drawn))]);
      CollectAppend(s.results, ToolMessageIn(codec, last), EventsBy);
      LastEvents(codec, t);
    }
  }

  lemma LastEvents(codec: Codec, t: Tagged)
    ensures CallEvents(ChatCallIn(codec, t.block)) == OnlyCalls(EventIn(t))
    ensures ChatEvents(ToolMessageIn(codec, t.block)) == OnlyAnswers(EventIn(t))
  {
    OneEvent(EventIn(t));
    if t.block.ToolUse? && !Blank(t.block.name) {
      UseEvent(codec, t);
    } else if t.block.ToolResult? {
      CollectOne(ToolMessageIn(codec, t.block)[0], EventsBy);
    }
  }

  lemma UseEvent(codec: Codec, t: Tagged)
    requires t.block.ToolUse? && !Blank(t.block.name)
    ensures CallEvents(ChatCallIn(codec, t.block)) == EventIn(t)
  {
    var c := ChatCallIn(codec, t.block)[0];
    assert ChatCallIn(codec, t.block) == [c];
    NameSurvives(t.block.name);
    IdSurvives(t.block.id, t.block.drawn);
    OneCallEvent(c);
  }

  lemma OneCallEvent(c: ChatCall)
    requires !Blank(c.name)
    ensures CallEvents([c]) == [Calls(IdOf(c.id, c.drawn))]
  {
    CollectOne(c, (c: ChatCall) => if Blank(c.name) then [] else [Calls(IdOf(c.id, c.drawn))]);
  }

  lemma OneEvent(events: seq<Event>)
    requires |events| <= 1
    ensures OnlyCalls(events) == if events != [] && events[0].Calls? then events else []
    ensures OnlyAnswers(events) == if events != [] && events[0].Answers? then events else []
  {
    if events != [] {
      assert events == [events[0]];
      CollectOne(events[0], (e: Event) => if e.Calls? then [e] else []);
      CollectOne(events[0], (e: Event) => if e.Answers? then [e] else []);
    }
  }

  lemma MessageEvents(codec: Codec, m: AnthropicMessage)
    ensures
      ChatEvents(ChatFor(codec, m)) == OnlyCalls(EventsAmong(TurnBlocks(m))) + OnlyAnswers(EventsAmong(TurnBlocks(m)))
  {
    if IsTurn(m.role) {
      var s := SortedBlocks(codec, m.blocks);
      SortedEvents(codec, m.role, m.blocks);
      var own := if s.texts == [] && s.calls == [] && s.thoughts == [] then []
        else [ChatMessage(m.role, ContentOf(s.texts), s.calls, "", JoinLines(s.thoughts))];
      CollectAppend(own, s.results, EventsBy);
      assert ChatEvents(own) == CallEvents(s.calls);
    }
  }

  /** Results may be added behind events that hold all their calls. */
  lemma ResultsBehind(events: seq<Event>, answers: seq<Event>)
    requires AnswersFollow(events)
    requires forall e :: e in answers ==> e.Answers? && Calls(e.id) in events
    ensures AnswersFollow(events + answers)
  {
    var all := events + answers;
    forall j | 0 <= j < |all| && all[j].Answers? ensures Calls(all[j].id) in all[..j] {
      if j < |events| {
        assert all[..j] == events[..j];
      } else {
        assert all[j] == answers[j - |events|] && answers[j - |events|] in answers;
        assert all[..j] == events + answers[..j - |events|];
      }
    }
  }

  lemma CallsFollow(events: seq<Event>, calls: seq<Event>)
    requires AnswersFollow(events) && forall e :: e in calls ==> e.Calls?
    ensures AnswersFollow(events + calls)
  {
    var all := events + calls;
    forall j | |events| <= j < |all| ensures all[j].Calls? {
      assert calls[j - |events|] in calls;
    }
    forall j | 0 <= j < |all| && all[j].Answers? ensures Calls(all[j].id) in all[..j] {
      assert all[..j] == events[..j];
    }
  }

  /** The call of a result of the last message is in that message or before it. */
  lemma CallIsThere(before: seq<Event>, events: seq<Event>, e: Event)
    requires AnswersFollow(before + events) && e in events && e.Answers?
    ensures Calls(e.id) in before || Calls(e.id) in events
  {
    var k :| 0 <= k < |events| && events[k] == e;
    assert (before + events)[|before| + k] == e;
    assert (before + events)[..|before| + k] == before + events[..k];
  }

  /** Moving the calls of one message before its results parts no result from its call. */
  lemma RegroupFollows(before: seq<Event>, events: seq<Event>, out: seq<Event>)
    requires forall e :: e in out <==> e in before
    requires AnswersFollow(before + events) && AnswersFollow(out)
    ensures AnswersFollow(out + (OnlyCalls(events) + OnlyAnswers(events)))
  {
    OnlyMembers(events);
    CallsFollow(out, OnlyCalls(events));
    forall e | e in OnlyAnswers(events) ensures Calls(e.id) in out + OnlyCalls(events) {
      CallIsThere(before, events, e);
    }
    ResultsBehind(out + OnlyCalls(events), OnlyAnswers(events));
    Assoc(out, OnlyCalls(events), OnlyAnswers(events));
  }

  /** Anthropic to Chat leaves every result behind its call, though it reorders blocks within a message. */
  lemma {:induction false} AnthropicToChatKeepsFollowing(codec: Codec, messages: seq<AnthropicMessage>)
    requires AnswersFollow(EventsAmong(Turns(messages)))
    ensures AnswersFollow(ChatEvents(ChatForAll(codec, messages)))
    ensures forall e :: e in ChatEvents(ChatForAll(codec, messages)) <==> e in EventsAmong(Turns(messages))
  {
    if messages != [] {
      var front, last := messages[..|messages| - 1], messages[|messages| - 1];
      CollectAppend(Turns(front), TurnBlocks(last), EventIn);
      var before, events := EventsAmong(Turns(front)), EventsAmong(TurnBlocks(last));
      FollowsPrefix(before, events);
      AnthropicToChatKeepsFollowing(codec, front);
      CollectAppend(ChatForAll(codec, front), ChatFor(codec, last), EventsBy);
      MessageEvents(codec, last);
      OnlyMembers(events);
      RegroupFollows(before, events, ChatEvents(ChatForAll(codec, front)));
    }
  }

  lemma FollowsPrefix(a: seq<Event>, b: seq<Event>)
    requires AnswersFollow(a + b)
    ensures AnswersFollow(a)
  {
    forall j | 0 <= j < |a| && a[j].Answers? ensures Calls(a[j].id) in a[..j] {
      assert (a + b)[j] == a[j] && (a + b)[..j] == a[..j];
    }
  }
}
