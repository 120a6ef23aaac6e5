/** What each message of a conversation becomes, told from its fields, in all three protocols. */
module TranslateFields {
  import opened Basics
  import opened Text
  import opened Translate
  import TR = TranslateResponses

  // ----- Lists -----

  lemma {:induction false} CollectPicks<T(!new), U(!new)>(items: seq<T>, f: T -> seq<U>, keep: T -> bool, make: T -> U)
    returns (at: seq<nat>)
    requires forall x :: f(x) == if keep(x) then [make(x)] else []
    ensures Picked(items, at, Collect(items, f), keep, make)
  {
    if items == [] {
      at := [];
      PickedNone(keep, make);
    } else {
      var front, last := items[..|items| - 1], items[|items| - 1];
      at := CollectPicks(front, f, keep, make);
      PickedSnoc(front, at, Collect(front, f), keep, make, last);
      assert items == front + [last];
      at := at + if keep(last) then [|front|] else [];
    }
  }

  /** Lines are joined by line feeds. */
  lemma JoinedByLines(front: seq<string>, last: string)
    ensures JoinLines([]) == "" && JoinLines([last]) == last
    ensures front != [] ==> JoinLines(front + [last]) == JoinLines(front) + "\n" + last
  {
    assert (front + [last])[..|front|] == front;
  }

  // ----- Texts and calls -----

  /** The texts of a content: its string, or those of its parts, as far as they are not empty. */
  lemma TextsPicked(content: Content) returns (at: seq<nat>)
    ensures content.NoContent? ==> Texts(content) == []
    ensures content.Str? ==> Texts(content) == if content.text == "" then [] else [content.text]
    ensures
      content.Parts? ==> Picked(content.parts, at, Texts(content), (p: Part) => p.text != "", (p: Part) => p.text)
  {
    at := [];
    if content.Parts? {
      at := CollectPicks(content.parts, (p: Part) => Nonempty(p.text), (p: Part) => p.text != "", (p: Part) => p.text);
    }
  }

  /** A name that is not all white space. */
  ghost predicate IsNamed(name: string) {
    exists i :: 0 <= i < |name| && !IsWhite(name[i])
  }

  lemma NamedMeans(name: string)
    ensures IsNamed(name) <==> !Blank(name)
  {
    BlankMeans(name);
  }

  /** The arguments as an object: what they read as, if that is one, and else the empty object. */
  function ObjectFor(codec: Codec, arguments: string): Json {
    if arguments == "" then ObjectFor'(codec, "{}") else ObjectFor'(codec, arguments)
  }

  function ObjectFor'(codec: Codec, arguments: string): Json {
    match codec.parse(arguments)
    case Some(Object(members)) => Object(members)
    case _ => Object(map[])
  }

  function GivenId(id: string, drawn: string): string {
    if id == "" then "call_" + drawn else id
  }

  /** The tool uses: the calls with a name, with the name trimmed, an id and an object as input. */
  lemma UsesPicked(codec: Codec, calls: seq<ChatCall>) returns (at: seq<nat>)
    ensures
      Picked(calls, at, ToolUses(codec, calls), (c: ChatCall) => IsNamed(c.name),
             (c: ChatCall) =>
               ToolUse(GivenId(c.id, c.drawn), TrimSpace(c.name), Some(ObjectFor(codec, c.arguments)), ""))
  {
    var keep, make := (c: ChatCall) => IsNamed(c.name),
        (c: ChatCall) => ToolUse(GivenId(c.id, c.drawn), TrimSpace(c.name), Some(ObjectFor(codec, c.arguments)), "");
    forall c: ChatCall ensures ToolUseOf(codec, c) == if keep(c) then [make(c)] else [] {
      NamedMeans(c.name);
    }
    at := CollectPicks(calls, (c: ChatCall) => ToolUseOf(codec, c), keep, make);
  }

  // ----- Chat to Anthropic -----

  /** A text block for each text, then the tool uses, all under the role. */
  ghost predicate AreTurn(role: string, texts: seq<string>, uses: seq<Block>, blocks: seq<Tagged>) {
    && |blocks| == |texts| + |uses|
    && (forall i :: 0 <= i < |texts| ==> blocks[i] == Tagged(role, TextBlock(texts[i])))
    && forall j :: 0 <= j < |uses| ==> blocks[|texts| + j] == Tagged(role, uses[j])
  }

  lemma TurnExpands(codec: Codec, m: ChatMessage)
    requires m.role == "user" || m.role == "assistant"
    ensures AreTurn(m.role, Texts(m.content), ToolUses(codec, m.calls), Expansion(codec, m))
  {
    TurnTagged(m.role, Texts(m.content), ToolUses(codec, m.calls));
  }

  lemma TurnTagged(role: string, texts: seq<string>, uses: seq<Block>)
    ensures AreTurn(role, texts, uses, Tag(role, TextBlocks(texts) + uses))
  {
    TextBlocksAre(texts);
    TaggedParts(role, TextBlocks(texts), uses);
  }

  lemma TaggedParts(role: string, a: seq<Block>, b: seq<Block>)
    ensures |Tag(role, a + b)| == |a| + |b|
    ensures forall i :: 0 <= i < |a| ==> Tag(role, a + b)[i] == Tagged(role, a[i])
    ensures forall j :: 0 <= j < |b| ==> Tag(role, a + b)[|a| + j] == Tagged(role, b[j])
  {
  }

  lemma {:induction false} TextBlocksAre(texts: seq<string>)
    ensures |TextBlocks(texts)| == |texts|
    ensures forall i :: 0 <= i < |texts| ==> TextBlocks(texts)[i] == TextBlock(texts[i])
  {
    if texts != [] { TextBlocksAre(texts[..|texts| - 1]); }
  }

  /** A tool's message is a result, under the user's role; any other role leaves no block. */
  lemma OtherExpands(codec: Codec, m: ChatMessage)
    requires m.role != "user" && m.role != "assistant"
    ensures m.role != "tool" ==> Expansion(codec, m) == []
    ensures
      m.role == "tool" ==>
        && |Expansion(codec, m)| == 1 && Expansion(codec, m)[0].role == "user"
        && Expansion(codec, m)[0].block.ToolResult? && Expansion(codec, m)[0].block.id == m.answers
        && match m.content
           case NoContent => Expansion(codec, m)[0].block.content == Str(codec.render(Null))
           case Str(text) => Expansion(codec, m)[0].block.content == Str(text)
           case Parts(_) =>
             var texts, content := Texts(m.content), Expansion(codec, m)[0].block.content;
             if texts == [] then content == Str("")
             else
               content.Parts? && |content.parts| == |texts|
               && forall i :: 0 <= i < |texts| ==> content.parts[i] == Typed(texts[i])
  {
  }

  /** The text of a system message: its string, or its parts line by line, bare ones even when they are empty. */
  lemma InstructionsAre(content: Content) returns (texts: seq<string>, at: seq<nat>)
    ensures InstructionsText(content) == JoinLines(texts)
    ensures content.NoContent? ==> texts == []
    ensures content.Str? ==> texts == [content.text]
    ensures
      content.Parts? ==>
        Picked(content.parts, at, texts, (p: Part) => p.Bare? || p.text != "", (p: Part) => p.text)
  {
    match content
    case NoContent => texts, at := [], [];
    case Str(text) => texts, at := [text], [];
    case Parts(parts) =>
      var f := (p: Part) => if p.Typed? then Nonempty(p.text) else [p.text];
      texts := Collect(parts, f);
      at := CollectPicks(parts, f, (p: Part) => p.Bare? || p.text != "", (p: Part) => p.text);
  }

  /** The system text: the texts of the system and developer messages that are not empty. */
  lemma SystemPicked(msgs: seq<ChatMessage>) returns (at: seq<nat>)
    ensures
      Picked(msgs, at, SystemTexts(msgs),
             (m: ChatMessage) => m.role in {"system", "developer"} && InstructionsText(m.content) != "",
             (m: ChatMessage) => InstructionsText(m.content))
  {
    at := CollectPicks(msgs,
      (m: ChatMessage) => if IsSystem(m.role) then Nonempty(InstructionsText(m.content)) else [],
      (m: ChatMessage) => m.role in {"system", "developer"} && InstructionsText(m.content) != "",
      (m: ChatMessage) => InstructionsText(m.content));
  }

  // ----- Anthropic to Chat -----

  /** The texts of a message that are not empty. */
  lemma BlockTextsPicked(codec: Codec, blocks: seq<Block>) returns (at: seq<nat>)
    ensures
      Picked(blocks, at, SortedBlocks(codec, blocks).texts, (b: Block) => b.TextBlock? && b.text != "",
             (b: Block) => if b.TextBlock? then b.text else "")
  {
    at := CollectPicks(blocks, TextIn, (b: Block) => b.TextBlock? && b.text != "",
      (b: Block) => if b.TextBlock? then b.text else "");
  }

  lemma BlockThoughtsPicked(codec: Codec, blocks: seq<Block>) returns (at: seq<nat>)
    ensures
      Picked(blocks, at, SortedBlocks(codec, blocks).thoughts, (b: Block) => b.Thinking? && b.text != "",
             (b: Block) => if b.Thinking? then b.text else "")
  {
    at := CollectPicks(blocks, ThoughtIn, (b: Block) => b.Thinking? && b.text != "",
      (b: Block) => if b.Thinking? then b.text else "");
  }

  /** The call for a tool use; its input is written out, a missing one as the empty object. */
  function CallFor(codec: Codec, b: Block): ChatCall
  {
    match b
    case ToolUse(id, name, input, drawn) =>
      ChatCall(GivenId(id, drawn), TrimSpace(name),
        match input
        case None => "{}"
        case Some(v) => codec.render(v), "")
    case _ => ChatCall("", "", "", "")
  }

  lemma BlockCallsPicked(codec: Codec, blocks: seq<Block>) returns (at: seq<nat>)
    ensures
      Picked(blocks, at, SortedBlocks(codec, blocks).calls, (b: Block) => b.ToolUse? && IsNamed(b.name),
             (b: Block) => CallFor(codec, b))
  {
    var keep, make := (b: Block) => b.ToolUse? && IsNamed(b.name), (b: Block) => CallFor(codec, b);
    forall b: Block ensures ChatCallIn(codec, b) == if keep(b) then [make(b)] else [] {
      if b.ToolUse? { NamedMeans(b.name); }
    }
    at := CollectPicks(blocks, (b: Block) => ChatCallIn(codec, b), keep, make);
  }

  /** The message for a tool result. */
  ghost predicate IsAnswer(codec: Codec, b: Block, m: ChatMessage) {
    && b.ToolResult? && m.role == "tool" && m.answers == b.id && m.calls == [] && m.reasoning == ""
    && match b.content
       case NoContent => m.content == NoContent
       case Str(text) => m.content == Str(if text == "" then "\"\"" else text)
       case Parts(parts) =>
         var text := JoinLines(Texts(Parts(TypedOnly(parts))));
         if forall i :: 0 <= i < |parts| ==> parts[i].Bare? then m.content == b.content
         else m.content == Str(if text == "" then codec.renderParts(parts) else text)
  }

  /** The parts that are objects. */
  lemma TypedPicked(parts: seq<Part>) returns (at: seq<nat>)
    ensures Picked(parts, at, TypedOnly(parts), (p: Part) => p.Typed?, (p: Part) => p)
  {
    at := CollectPicks(parts, (p: Part) => if p.Typed? then [p] else [], (p: Part) => p.Typed?, (p: Part) => p);
  }

  lemma AnswerMessage(codec: Codec, b: Block)
    requires b.ToolResult?
    ensures |ToolMessageIn(codec, b)| == 1 && IsAnswer(codec, b, ToolMessageIn(codec, b)[0])
  {
    if b.content.Parts? {
      var parts, typed := b.content.parts, TypedOnly(b.content.parts);
      var at := TypedPicked(parts);
      if typed == [] {
        forall i: nat | i < |parts| ensures parts[i].Bare? {
          assert !(i in at);
        }
      } else {
        assert parts[at[0]].Typed?;
      }
    }
  }

  /** The results of a message, each as a message of its own. */
  lemma BlockResultsPicked(codec: Codec, blocks: seq<Block>) returns (at: seq<nat>)
    ensures
      Picked(blocks, at, SortedBlocks(codec, blocks).results, (b: Block) => b.ToolResult?,
             (b: Block) =>
               ChatMessage("tool", if b.ToolResult? then ToolContent(codec, b.content) else NoContent, [],
                           if b.ToolResult? then b.id else "", ""))
  {
    at := CollectPicks(blocks, (b: Block) => ToolMessageIn(codec, b), (b: Block) => b.ToolResult?,
      (b: Block) =>
        ChatMessage("tool", if b.ToolResult? then ToolContent(codec, b.content) else NoContent, [],
                    if b.ToolResult? then b.id else "", ""));
  }

  /**
   * A user's or assistant's blocks: one message with the texts, the calls and
   * the thoughts, if there are any, and the results behind it.
   */
  lemma ChatMessages(codec: Codec, m: AnthropicMessage)
    ensures m.role != "user" && m.role != "assistant" ==> ChatFor(codec, m) == []
    ensures
      m.role == "user" || m.role == "assistant" ==>
        var s, out := SortedBlocks(codec, m.blocks), ChatFor(codec, m);
        if s.texts == [] && s.calls == [] && s.thoughts == [] then out == s.results
        else
          && out != [] && out[1..] == s.results && out[0].role == m.role && out[0].calls == s.calls
          && out[0].reasoning == JoinLines(s.thoughts)
          && (s.texts == [] ==> out[0].content == NoContent)
          && (|s.texts| == 1 ==> out[0].content == Str(s.texts[0]))
          && (|s.texts| > 1 ==>
                && out[0].content.Parts? && |out[0].content.parts| == |s.texts|
                && forall i :: 0 <= i < |s.texts| ==> out[0].content.parts[i] == Typed(s.texts[i]))
  {
  }

  /** A system text becomes the first message. */
  lemma SystemFirst(system: string)
    ensures SystemMessage(system) == if system == "" then [] else [ChatMessage("system", Str(system), [], "", "")]
  {
  }

  // ----- Chat to Responses -----

  /** The texts of a message item: bare parts as far as they are not empty, objects in any case. */
  lemma ItemTextsPicked(content: Content) returns (at: seq<nat>)
    ensures content.NoContent? ==> TR.ItemTexts(content) == []
    ensures content.Str? ==> TR.ItemTexts(content) == if content.text == "" then [] else [content.text]
    ensures
      content.Parts? ==>
        Picked(content.parts, at, TR.ItemTexts(content), (p: Part) => p.Typed? || p.text != "", (p: Part) => p.text)
  {
    at := [];
    if content.Parts? {
      at := CollectPicks(content.parts, TR.PartText, (p: Part) => p.Typed? || p.text != "", (p: Part) => p.text);
    }
  }

  /** The function calls of an assistant: those with a name, with the arguments as they are, or an empty object. */
  lemma CallItemsPicked(m: ChatMessage) returns (at: seq<nat>)
    ensures m.role != "assistant" ==> TR.CallItems(m) == []
    ensures
      m.role == "assistant" ==>
        Picked(m.calls, at, TR.CallItems(m), (c: ChatCall) => IsNamed(c.name),
               (c: ChatCall) =>
                 FunctionCall(GivenId(c.id, c.drawn), TrimSpace(c.name),
                              if c.arguments == "" then "{}" else c.arguments))
  {
    var keep, make := (c: ChatCall) => IsNamed(c.name),
        (c: ChatCall) =>
          FunctionCall(GivenId(c.id, c.drawn), TrimSpace(c.name), if c.arguments == "" then "{}" else c.arguments);
    forall c: ChatCall ensures TR.CallItem(c) == if keep(c) then [make(c)] else [] {
      NamedMeans(c.name);
    }
    at := CollectPicks(m.calls, TR.CallItem, keep, make);
  }

  /** A user's or assistant's message: an assistant's reasoning, its texts in one item, its calls. */
  lemma TurnItemsAre(codec: Codec, instructed: bool, m: ChatMessage)
    requires m.role == "user" || m.role == "assistant"
    ensures
      var items, thought, texts := TR.ItemsOf(codec, instructed, m), TrimSpace(m.reasoning), TR.ItemTexts(m.content);
      var a, b := if m.role == "assistant" && thought != "" then 1 else 0, if texts != [] then 1 else 0;
      && (a == 1 ==> items != [] && items[0] == Reasoning(thought))
      && (b == 1 ==> |items| > a && items[a] == MessageItem(m.role, texts))
      && |items| >= a + b && items[a + b..] == TR.CallItems(m)
  {
  }

  /** A tool's message is an output, a system message behind the first a developer message; other roles are none. */
  lemma OtherItemsAre(codec: Codec, instructed: bool, m: ChatMessage)
    requires m.role != "user" && m.role != "assistant"
    ensures
      m.role in {"system", "developer"} ==>
        TR.ItemsOf(codec, instructed, m) ==
          if instructed then [MessageItem("developer", [InstructionsText(m.content)])] else []
    ensures m.role !in {"system", "developer", "tool"} ==> TR.ItemsOf(codec, instructed, m) == []
    ensures
      m.role == "tool" ==>
        && |TR.ItemsOf(codec, instructed, m)| == 1 && TR.ItemsOf(codec, instructed, m)[0].FunctionOutput?
        && var item := TR.ItemsOf(codec, instructed, m)[0];
        && item.id == m.answers
        && match m.content
           case NoContent => item.output == codec.render(Null)
           case Str(text) => item.output == if text == "" then "\"\"" else text
           case Parts(parts) => item.output == codec.renderParts(parts)
  {
  }

  ghost predicate AnySystem(msgs: seq<ChatMessage>) {
    exists i :: 0 <= i < |msgs| && msgs[i].role in {"system", "developer"}
  }

  /** The items of the messages one after the other; the first system message is the instructions. */
  lemma ItemsInOrder(codec: Codec, front: seq<ChatMessage>, last: ChatMessage)
    ensures TR.Items(codec, []) == []
    ensures TR.Items(codec, front + [last]) == TR.Items(codec, front) + TR.ItemsOf(codec, AnySystem(front), last)
  {
    assert (front + [last])[..|front|] == front;
    InstructedMeans(front);
  }

  lemma {:induction false} InstructedMeans(msgs: seq<ChatMessage>)
    ensures Instructions(msgs) != [] <==> AnySystem(msgs)
  {
    if msgs != [] {
      var front, last := msgs[..|msgs| - 1], msgs[|msgs| - 1];
      InstructedMeans(front);
      AnySystemSnoc(front, last);
      assert msgs == front + [last];
    }
  }

  lemma AnySystemSnoc(front: seq<ChatMessage>, last: ChatMessage)
    ensures AnySystem(front + [last]) <==> AnySystem(front) || last.role in {"system", "developer"}
  {
    var all := front + [last];
    if last.role in {"system", "developer"} { assert all[|front|].role in {"system", "developer"}; }
    if AnySystem(front) {
      var i :| 0 <= i < |front| && front[i].role in {"system", "developer"};
      assert all[i].role in {"system", "developer"};
    }
  }

  lemma InstructionsFirst(msgs: seq<ChatMessage>, k: nat)
    requires k < |msgs| && msgs[k].role in {"system", "developer"} && !AnySystem(msgs[..k])
    ensures TR.FirstInstruction(msgs) == InstructionsText(msgs[k].content)
  {
    var f := (m: ChatMessage) => if IsSystem(m.role) then [InstructionsText(m.content)] else [];
    InstructedMeans(msgs[..k]);
    assert msgs == msgs[..k] + msgs[k..];
    CollectAppend(msgs[..k], msgs[k..], f);
    assert msgs[k..] == [msgs[k]] + msgs[k + 1..];
    CollectAppend([msgs[k]], msgs[k + 1..], f);
    CollectOne(msgs[k], f);
  }

  lemma NoInstructions(msgs: seq<ChatMessage>)
    requires !AnySystem(msgs)
    ensures TR.FirstInstruction(msgs) == ""
  {
    InstructedMeans(msgs);
  }
}
