/**
 * Chat to Responses (internal/provider/translate_responses.go): every message
 * expands into input items.
 */
module TranslateResponses {
  import opened Basics
  import opened Text
  import opened Translate
  import opened TranslateProofs

  /** The texts of a message item: a typed part is kept even when it is empty. */
  function PartText(p: Part): seq<string> {
    if p.Typed? then [p.text] else Nonempty(p.text)
  }

  function ItemTexts(content: Content): seq<string> {
    match content
    case NoContent => []
    case Str(text) => Nonempty(text)
    case Parts(parts) => Collect(parts, PartText)
  }

  function CallItem(c: ChatCall): seq<Item> {
    if Blank(c.name) then []
    else [FunctionCall(IdOf(c.id, c.drawn), TrimSpace(c.name), if c.arguments == "" then EMPTY_OBJECT else c.arguments)]
  }

  function Output(codec: Codec, content: Content): string {
    match content
    case NoContent => codec.render(Null)
    case Str(text) => if text == "" then EMPTY_STRING else text
    case Parts(parts) => codec.renderParts(parts)
  }

  function ReasoningItem(m: ChatMessage): seq<Item> {
    if m.role == "assistant" && TrimSpace(m.reasoning) != "" then [Reasoning(TrimSpace(m.reasoning))] else []
  }

  function MessageItems(m: ChatMessage): seq<Item> {
    if ItemTexts(m.content) == [] then [] else [MessageItem(m.role, ItemTexts(m.content))]
  }

  function CallItems(m: ChatMessage): seq<Item> {
    if m.role == "assistant" then Collect(m.calls, CallItem) else []
  }

  /** The items of a message; of the system messages, all but the first become developer messages. */
  function ItemsOf(codec: Codec, instructed: bool, m: ChatMessage): seq<Item> {
    if IsSystem(m.role) then (if instructed then [MessageItem("developer", [InstructionsText(m.content)])] else [])
    else if IsTurn(m.role) then ReasoningItem(m) + MessageItems(m) + CallItems(m)
    else if m.role == "tool" then [FunctionOutput(m.answers, Output(codec, m.content))]
    else []
  }

  function Items(codec: Codec, msgs: seq<ChatMessage>): seq<Item> {
    if msgs == [] then []
    else
      var front := msgs[..|msgs| - 1];
      Items(codec, front) + ItemsOf(codec, Instructions(front) != [], msgs[|msgs| - 1])
  }

  method ToolCallItems(calls: seq<ChatCall>) returns (items: seq<Item>)
    ensures items == Collect(calls, CallItem)
  {
    items := [];
    for i := 0 to |calls|
      invariant items == Collect(calls[..i], CallItem)
    {
      var c := calls[i];
      assert calls[..i + 1][..i] == calls[..i];
      var name := TrimSpace(c.name);
      if name == "" { continue; }
      var arguments := if c.arguments == "" then EMPTY_OBJECT else c.arguments;
      items := items + [FunctionCall(IdOf(c.id, c.drawn), name, arguments)];
    }
    assert calls[..|calls|] == calls;
  }

  method TurnItems(m: ChatMessage) returns (items: seq<Item>)
    requires IsTurn(m.role)
    ensures items == ReasoningItem(m) + MessageItems(m) + CallItems(m)
  {
    items := [];
    if m.role == "assistant" {
      var thought := TrimSpace(m.reasoning);
      if thought != "" { items := [Reasoning(thought)]; }
    }
    var texts := ItemTexts(m.content);
    if texts != [] { items := items + [MessageItem(m.role, texts)]; }
    if m.role == "assistant" {
      var calls := ToolCallItems(m.calls);
      items := items + calls;
    }
  }

  // ----- Bodies that are Responses requests already -----

  type Fields = map<string, Json>

  const BUDGET := "max_output_tokens"
  const COMPLETION_BUDGET := "max_completion_tokens"
  const LEGACY_BUDGET := "max_tokens"

  /** The number under a key, if there is one. */
  function Amount(raw: Fields, key: string): Option<Json> {
    if key in raw && raw[key].Number? then Some(raw[key]) else None
  }

  /** One of the Chat names of the budget is taken over, if it holds a number, and removed. */
  function TakenOver(raw: Fields, key: string): Fields {
    (if Amount(raw, key).Some? then raw[BUDGET := raw[key]] else raw) - {key}
  }

  method NormalizeTokenBudget(fields: Fields) returns (raw: Fields)
    ensures raw == if BUDGET in fields then fields else TakenOver(TakenOver(fields, COMPLETION_BUDGET), LEGACY_BUDGET)
  {
    raw := fields;
    if BUDGET in raw { return; }
    var keys := [COMPLETION_BUDGET, LEGACY_BUDGET];
    for i := 0 to 2
      invariant
        raw == if i == 0 then fields else if i == 1 then TakenOver(fields, keys[0])
          else TakenOver(TakenOver(fields, keys[0]), keys[1])
    {
      if keys[i] in raw && raw[keys[i]].Number? { raw := raw[BUDGET := raw[keys[i]]]; }
      raw := raw - {keys[i]};
    }
  }

  /**
   * The budget of a normalized body: its own if it has one, and then nothing
   * changes; else the legacy one before the completion one, and both of these
   * are gone. Every other field stays.
   */
  lemma BudgetTaken(fields: Fields)
    requires BUDGET !in fields
    ensures
      var raw := TakenOver(TakenOver(fields, COMPLETION_BUDGET), LEGACY_BUDGET);
      && "max_completion_tokens" !in raw && "max_tokens" !in raw
      && (if "max_output_tokens" in raw then Some(raw["max_output_tokens"]) else None)
         == (if Holds(fields, "max_tokens") then Some(fields["max_tokens"])
             else if Holds(fields, "max_completion_tokens") then Some(fields["max_completion_tokens"])
             else None)
      && forall key :: key !in {"max_output_tokens", "max_completion_tokens", "max_tokens"} ==>
           (key in raw <==> key in fields) && (key in raw ==> raw[key] == fields[key])
  {
    DistinctBudgets();
  }

  /** The field is there and a number. */
  predicate Holds(fields: Fields, key: string) {
    key in fields && fields[key].Number?
  }

  lemma DistinctBudgets()
    ensures BUDGET != COMPLETION_BUDGET && BUDGET != LEGACY_BUDGET && COMPLETION_BUDGET != LEGACY_BUDGET
  {
    assert |BUDGET| == 17 && |COMPLETION_BUDGET| == 21 && |LEGACY_BUDGET| == 10;
  }

  /** A request with an `input` field goes through as it is, but for the stream, the store and the budget fields. */
  datatype ResponsesBody = Native(fields: Fields) | Translated(request: ResponsesRequest)

  method TranslateBody(codec: Codec, native: Option<Fields>, msgs: seq<ChatMessage>, stream: bool)
    returns (out: ResponsesBody)
    ensures native.None? ==> out.Translated? && out.request.input == Items(codec, msgs)
    ensures native.None? ==> out.Translated? && out.request.instructions == FirstInstruction(msgs)
    ensures native.Some? ==>
      var marked := native.value["stream" := Flag(stream)]["store" := Flag(false)];
      out == Native(if BUDGET in marked then marked else TakenOver(TakenOver(marked, COMPLETION_BUDGET), LEGACY_BUDGET))
  {
    if native.Some? {
      var raw := NormalizeTokenBudget(native.value["stream" := Flag(stream)]["store" := Flag(false)]);
      return Native(raw);
    }
    var request := TranslateChatToResponses(codec, msgs);
    out := Translated(request);
  }

  function FirstInstruction(msgs: seq<ChatMessage>): string {
    if Instructions(msgs) == [] then "" else Instructions(msgs)[0]
  }

  method TranslateChatToResponses(codec: Codec, msgs: seq<ChatMessage>) returns (out: ResponsesRequest)
    ensures out.input == Items(codec, msgs)
    ensures out.instructions == FirstInstruction(msgs)
  {
    var instructions, instructionsSet := "", false;
    var input: seq<Item> := [];
    for i := 0 to |msgs|
      invariant input == Items(codec, msgs[..i])
      invariant instructionsSet <==> Instructions(msgs[..i]) != []
      invariant instructions == if instructionsSet then Instructions(msgs[..i])[0] else ""
    {
      var msg := msgs[i];
      assert msgs[..i + 1][..i] == msgs[..i];
      InstructionsSnoc(msgs, i);
      if IsSystem(msg.role) {
        if !instructionsSet {
          instructions, instructionsSet := InstructionsText(msg.content), true;
          continue;
        }
        input := input + [MessageItem("developer", [InstructionsText(msg.content)])];
      } else if IsTurn(msg.role) {
        var items := TurnItems(msg);
        input := input + items;
      } else if msg.role == "tool" {
        input := input + [FunctionOutput(msg.answers, Output(codec, msg.content))];
      }
    }
    assert msgs[..|msgs|] == msgs;
    out := ResponsesRequest(instructions, input);
  }

  lemma InstructionsSnoc(msgs: seq<ChatMessage>, i: nat)
    requires i < |msgs|
    ensures Instructions(msgs[..i + 1]) ==
      Instructions(msgs[..i]) + if IsSystem(msgs[i].role) then [InstructionsText(msgs[i].content)] else []
  {
    assert msgs[..i + 1][..i] == msgs[..i];
  }

  // ----- What the items say -----

  function SaidItem(item: Item): seq<Said> {
    if item.MessageItem? && IsTurn(item.role) then Saying(item.role, Collect(item.texts, Nonempty)) else []
  }

  function CalledItem(codec: Codec, item: Item): seq<Call> {
    if item.FunctionCall? then [Call(item.id, item.name, ToolArguments(codec, item.arguments))] else []
  }

  function AnsweredItem(item: Item): seq<Answer> {
    if item.FunctionOutput? then [Answer(item.id, item.output)] else []
  }

  function DeveloperItem(item: Item): seq<string> {
    if item.MessageItem? && item.role == "developer" then item.texts else []
  }

  function ItemEvent(item: Item): seq<Event> {
    if item.FunctionCall? then [Calls(item.id)]
    else if item.FunctionOutput? then [Answers(item.id)]
    else []
  }

  function SaidItems(items: seq<Item>): seq<Said> {
    Collect(items, SaidItem)
  }

  function CalledItems(codec: Codec, items: seq<Item>): seq<Call> {
    Collect(items, (item: Item) => CalledItem(codec, item))
  }

  function AnsweredItems(items: seq<Item>): seq<Answer> {
    Collect(items, AnsweredItem)
  }

  function DeveloperTexts(items: seq<Item>): seq<string> {
    Collect(items, DeveloperItem)
  }

  function ItemEvents(items: seq<Item>): seq<Event> {
    Collect(items, ItemEvent)
  }

  lemma ItemsAppend(codec: Codec, a: seq<Item>, b: seq<Item>)
    ensures SaidItems(a + b) == SaidItems(a) + SaidItems(b)
    ensures CalledItems(codec, a + b) == CalledItems(codec, a) + CalledItems(codec, b)
    ensures AnsweredItems(a + b) == AnsweredItems(a) + AnsweredItems(b)
    ensures DeveloperTexts(a + b) == DeveloperTexts(a) + DeveloperTexts(b)
    ensures ItemEvents(a + b) == ItemEvents(a) + ItemEvents(b)
  {
    CollectAppend(a, b, SaidItem);
    CollectAppend(a, b, (item: Item) => CalledItem(codec, item));
    CollectAppend(a, b, AnsweredItem);
    CollectAppend(a, b, DeveloperItem);
    CollectAppend(a, b, ItemEvent);
  }

  lemma OneItem(codec: Codec, items: seq<Item>)
    requires |items| <= 1
    ensures SaidItems(items) == if items == [] then [] else SaidItem(items[0])
    ensures CalledItems(codec, items) == if items == [] then [] else CalledItem(codec, items[0])
    ensures AnsweredItems(items) == if items == [] then [] else AnsweredItem(items[0])
    ensures DeveloperTexts(items) == if items == [] then [] else DeveloperItem(items[0])
    ensures ItemEvents(items) == if items == [] then [] else ItemEvent(items[0])
  {
    if items != [] {
      var item := items[0];
      assert items == [item];
      CollectOne(item, SaidItem);
      CollectOne(item, (item: Item) => CalledItem(codec, item));
      CollectOne(item, AnsweredItem);
      CollectOne(item, DeveloperItem);
      CollectOne(item, ItemEvent);
    }
  }

  /** A message that holds only calls of an assistant: what user messages call is lost. */
  function Heard(m: ChatMessage): ChatMessage {
    if m.role == "assistant" then m else m.(calls := [])
  }

  function HeardAll(msgs: seq<ChatMessage>): (r: seq<ChatMessage>)
    ensures |r| == |msgs| && forall i :: 0 <= i < |r| ==> r[i] == Heard(msgs[i])
  {
    seq(|msgs|, i requires 0 <= i < |msgs| => Heard(msgs[i]))
  }

  /** The output of a tool message as the items give it. */
  function OutputBy(codec: Codec, m: ChatMessage): seq<Answer> {
    if m.role == "tool" then [Answer(m.answers, Output(codec, m.content))] else []
  }

  function Outputs(codec: Codec, msgs: seq<ChatMessage>): seq<Answer> {
    Collect(msgs, (m: ChatMessage) => OutputBy(codec, m))
  }

  lemma {:induction false} PartTextsKept(parts: seq<Part>)
    ensures Collect(Collect(parts, PartText), Nonempty) == Texts(Parts(parts))
  {
    if parts != [] {
      var front, last := parts[..|parts| - 1], parts[|parts| - 1];
      PartTextsKept(front);
      CollectAppend(Collect(front, PartText), PartText(last), Nonempty);
      if PartText(last) != [] { CollectOne(last.text, Nonempty); }
      assert Collect(PartText(last), Nonempty) == Nonempty(last.text);
    }
  }

  lemma ItemTextsKept(content: Content)
    ensures Collect(ItemTexts(content), Nonempty) == Texts(content)
  {
    match content
    case NoContent =>
    case Str(text) => if text != "" { CollectOne(text, Nonempty); }
    case Parts(parts) => PartTextsKept(parts);
  }

  lemma {:induction false} CallItemsSay(codec: Codec, calls: seq<ChatCall>)
    ensures
      var items := Collect(calls, CallItem);
      && SaidItems(items) == [] && AnsweredItems(items) == [] && DeveloperTexts(items) == []
      && CalledItems(codec, items) == CallsOf(codec, calls)
      && ItemEvents(items) == CallEvents(calls)
  {
    if calls != [] {
      var front, last := calls[..|calls| - 1], calls[|calls| - 1];
      CallItemsSay(codec, front);
      ItemsAppend(codec, Collect(front, CallItem), CallItem(last));
      OneItem(codec, CallItem(last));
    }
  }

  ghost predicate SaysAs(codec: Codec, items: seq<Item>, m: ChatMessage) {
    && SaidItems(items) == SaidBy(m)
    && CalledItems(codec, items) == CalledBy(codec, Heard(m))
    && AnsweredItems(items) == OutputBy(codec, m)
    && ItemEvents(items) == EventsBy(Heard(m))
  }

  ghost predicate OnlySays(codec: Codec, items: seq<Item>, said: seq<Said>) {
    && SaidItems(items) == said && CalledItems(codec, items) == [] && AnsweredItems(items) == []
    && ItemEvents(items) == [] && DeveloperTexts(items) == []
  }

  lemma ReasoningSays(codec: Codec, m: ChatMessage)
    ensures OnlySays(codec, ReasoningItem(m), [])
  {
    OneItem(codec, ReasoningItem(m));
  }

  lemma MessageSays(codec: Codec, m: ChatMessage)
    requires IsTurn(m.role)
    ensures OnlySays(codec, MessageItems(m), SaidBy(m))
  {
    OneItem(codec, MessageItems(m));
    ItemTextsKept(m.content);
    if MessageItems(m) == [] {
      assert Texts(m.content) == [];
      assert Saying(m.role, []) == [];
    } else {
      assert MessageItems(m)[0] == MessageItem(m.role, ItemTexts(m.content));
    }
  }

  lemma SaysAppend(codec: Codec, a: seq<Item>, b: seq<Item>, said: seq<Said>)
    requires OnlySays(codec, a, []) && OnlySays(codec, b, said)
    ensures OnlySays(codec, a + b, said)
  {
    ItemsAppend(codec, a, b);
  }

  /** Reasoning and message items only speak. */
  lemma TextItemsSay(codec: Codec, m: ChatMessage)
    requires IsTurn(m.role)
    ensures OnlySays(codec, ReasoningItem(m) + MessageItems(m), SaidBy(m))
  {
    ReasoningSays(codec, m);
    MessageSays(codec, m);
    SaysAppend(codec, ReasoningItem(m), MessageItems(m), SaidBy(m));
  }

  lemma CallItemsCall(codec: Codec, m: ChatMessage)
    requires IsTurn(m.role)
    ensures
      var items := CallItems(m);
      && SaidItems(items) == [] && CalledItems(codec, items) == CalledBy(codec, Heard(m)) && AnsweredItems(items) == []
      && ItemEvents(items) == EventsBy(Heard(m)) && DeveloperTexts(items) == []
  {
    CallItemsSay(codec, Heard(m).calls);
    if m.role != "assistant" {
      assert Heard(m).calls == [] && CallItems(m) == [];
      assert Collect([], CallItem) == [];
    }
  }

  lemma TurnItemsSay(codec: Codec, m: ChatMessage)
    requires IsTurn(m.role)
    ensures SaysAs(codec, ReasoningItem(m) + MessageItems(m) + CallItems(m), m)
    ensures DeveloperTexts(ReasoningItem(m) + MessageItems(m) + CallItems(m)) == []
  {
    ItemsAppend(codec, ReasoningItem(m) + MessageItems(m), CallItems(m));
    TextItemsSay(codec, m);
    CallItemsCall(codec, m);
  }

  lemma ItemsOfSay(codec: Codec, instructed: bool, m: ChatMessage)
    ensures SaysAs(codec, ItemsOf(codec, instructed, m), m)
    ensures
      DeveloperTexts(ItemsOf(codec, instructed, m)) == if IsSystem(m.role) && instructed
        then [InstructionsText(m.content)] else []
  {
    if IsTurn(m.role) {
      TurnItemsSay(codec, m);
    } else {
      OneItem(codec, ItemsOf(codec, instructed, m));
    }
  }

  /** What one more message adds. */
  lemma ItemsSnoc(codec: Codec, front: seq<ChatMessage>, last: ChatMessage)
    ensures
      var items, more := Items(codec, front), Items(codec, front + [last]);
      && SaidItems(more) == SaidItems(items) + SaidBy(last)
      && CalledItems(codec, more) == CalledItems(codec, items) + CalledBy(codec, Heard(last))
      && AnsweredItems(more) == AnsweredItems(items) + OutputBy(codec, last)
      && ItemEvents(more) == ItemEvents(items) + EventsBy(Heard(last))
      && DeveloperTexts(more) == DeveloperTexts(items) +
           if IsSystem(last.role) && Instructions(front) != [] then [InstructionsText(last.content)] else []
  {
    assert (front + [last])[..|front|] == front;
    var instructed := Instructions(front) != [];
    ItemsOfSay(codec, instructed, last);
    ItemsAppend(codec, Items(codec, front), ItemsOf(codec, instructed, last));
  }

  lemma HeardSnoc(codec: Codec, front: seq<ChatMessage>, last: ChatMessage)
    ensures
      ChatCalled(codec, HeardAll(front + [last])) == ChatCalled(codec, HeardAll(front)) + CalledBy(codec, Heard(last))
    ensures ChatEvents(HeardAll(front + [last])) == ChatEvents(HeardAll(front)) + EventsBy(Heard(last))
  {
    assert HeardAll(front + [last]) == HeardAll(front) + [Heard(last)];
    CollectSnoc(HeardAll(front), Heard(last), (m: ChatMessage) => CalledBy(codec, m));
    CollectSnoc(HeardAll(front), Heard(last), EventsBy);
  }

  /**
   * Chat to Responses keeps who said what, the tool calls of the assistant and
   * the tool results, each in order, and the order of calls and results among
   * each other.
   */
  lemma {:induction false} ChatToResponsesKeeps(codec: Codec, msgs: seq<ChatMessage>)
    ensures SaidItems(Items(codec, msgs)) == ChatSaid(msgs)
    ensures CalledItems(codec, Items(codec, msgs)) == ChatCalled(codec, HeardAll(msgs))
    ensures AnsweredItems(Items(codec, msgs)) == Outputs(codec, msgs)
    ensures ItemEvents(Items(codec, msgs)) == ChatEvents(HeardAll(msgs))
  {
    if msgs != [] {
      var front, last := msgs[..|msgs| - 1], msgs[|msgs| - 1];
      assert msgs == front + [last];
      ChatToResponsesKeeps(codec, front);
      ItemsSnoc(codec, front, last);
      HeardSnoc(codec, front, last);
    }
  }

  /** The first system message becomes the instructions, every other one a developer message, in order. */
  lemma {:induction false} SystemMessagesKept(codec: Codec, msgs: seq<ChatMessage>)
    ensures DeveloperTexts(Items(codec, msgs)) == if Instructions(msgs) == [] then [] else Instructions(msgs)[1..]
  {
    if msgs != [] {
      var front, last := msgs[..|msgs| - 1], msgs[|msgs| - 1];
      assert msgs == front + [last];
      SystemMessagesKept(codec, front);
      ItemsSnoc(codec, front, last);
      assert msgs[..|front|] == front && msgs[..|front| + 1] == msgs;
      InstructionsSnoc(msgs, |front|);
      Tail(Instructions(front), if IsSystem(last.role) then [InstructionsText(last.content)] else []);
    }
  }

  lemma Tail<T>(front: seq<T>, more: seq<T>)
    requires |more| <= 1
    ensures front != [] ==> (front + more)[1..] == front[1..] + more
    ensures front == [] && more != [] ==> (front + more)[1..] == []
  {
  }

  ghost predicate NoPartResults(msgs: seq<ChatMessage>) {
    forall i :: 0 <= i < |msgs| && msgs[i].role == "tool" ==> !msgs[i].content.Parts?
  }

  ghost predicate NoEmptyResults(msgs: seq<ChatMessage>) {
    forall i :: 0 <= i < |msgs| && msgs[i].role == "tool" ==> msgs[i].content != Str("")
  }

  /** Tool results that are texts, or missing, arrive as they are exactly if none is the empty text. */
  lemma {:induction false} TextOutputsKept(codec: Codec, msgs: seq<ChatMessage>)
    requires NoPartResults(msgs)
    ensures Outputs(codec, msgs) == ChatAnswered(codec, msgs) <==> NoEmptyResults(msgs)
    ensures |Outputs(codec, msgs)| == |ChatAnswered(codec, msgs)|
  {
    if msgs != [] {
      var front, m := msgs[..|msgs| - 1], msgs[|msgs| - 1];
      assert msgs == front + [m];
      TextOutputsKept(codec, front);
      OutputKept(codec, m);
      SameConcat(Outputs(codec, front), ChatAnswered(codec, front), OutputBy(codec, m), AnsweredBy(codec, m));
      assert NoEmptyResults(msgs) <==> NoEmptyResults(front) && (m.role == "tool" ==> m.content != Str(""));
    }
  }

  lemma OutputKept(codec: Codec, m: ChatMessage)
    requires m.role == "tool" ==> !m.content.Parts?
    ensures OutputBy(codec, m) == AnsweredBy(codec, m) <==> (m.role == "tool" ==> m.content != Str(""))
    ensures |OutputBy(codec, m)| == |AnsweredBy(codec, m)|
  {
    if m.role == "tool" {
      assert OutputBy(codec, m)[0].text == Output(codec, m.content);
      assert AnsweredBy(codec, m)[0].text == AnswerText(codec, m.content);
      assert |EMPTY_STRING| == 2;
    }
  }

  lemma SameConcat<T>(a: seq<T>, b: seq<T>, x: seq<T>, y: seq<T>)
    requires |a| == |b|
    ensures a + x == b + y <==> a == b && x == y
  {
    if a + x == b + y {
      assert (a + x)[..|a|] == a && (b + y)[..|b|] == b;
      assert (a + x)[|a|..] == x && (b + y)[|b|..] == y;
    }
  }

  /** In the items every result follows its call exactly if it follows a call of the assistant in the chat. */
  lemma ResultsFollow(codec: Codec, msgs: seq<ChatMessage>)
    ensures AnswersFollow(ItemEvents(Items(codec, msgs))) <==> AnswersFollow(ChatEvents(HeardAll(msgs)))
    ensures (forall i :: 0 <= i < |msgs| && msgs[i].role == "user" ==> msgs[i].calls == []) ==>
      (AnswersFollow(ItemEvents(Items(codec, msgs))) <==> AnswersFollow(ChatEvents(msgs)))
  {
    ChatToResponsesKeeps(codec, msgs);
    if forall i :: 0 <= i < |msgs| && msgs[i].role == "user" ==> msgs[i].calls == [] {
      HeardKeepsEvents(msgs);
    }
  }

  lemma {:induction false} HeardKeepsEvents(msgs: seq<ChatMessage>)
    requires forall i :: 0 <= i < |msgs| && msgs[i].role == "user" ==> msgs[i].calls == []
    ensures ChatEvents(HeardAll(msgs)) == ChatEvents(msgs)
  {
    if msgs != [] {
      var front, last := msgs[..|msgs| - 1], msgs[|msgs| - 1];
      HeardKeepsEvents(front);
      assert HeardAll(msgs) == HeardAll(front) + [Heard(last)];
      CollectSnoc(HeardAll(front), Heard(last), EventsBy);
      assert EventsBy(Heard(last)) == EventsBy(last);
    }
  }

  /** What a user message calls is lost, and its result is left behind without it. */
  lemma UserCallIsLost(codec: Codec, id: string) returns (msgs: seq<ChatMessage>)
    requires id != ""
    ensures AnswersFollow(ChatEvents(msgs)) && !AnswersFollow(ItemEvents(Items(codec, msgs)))
  {
    var asking := ChatMessage("user", NoContent, [ChatCall(id, "f", "", "")], "", "");
    var answer := ChatMessage("tool", Str("x"), [], id, "");
    msgs := [asking, answer];
    EventsOfTwo(asking, answer);
    CollectOne(asking.calls[0], (c: ChatCall) => if Blank(c.name) then [] else [Calls(IdOf(c.id, c.drawn))]);
    BlankMeans("f");
    assert !IS_SPACE("f"[0]);
    assert ChatEvents(msgs) == [Calls(id), Answers(id)];
    EventsOfTwo(Heard(asking), Heard(answer));
    assert HeardAll(msgs) == [Heard(asking), Heard(answer)];
    var events := ChatEvents(HeardAll(msgs));
    assert events == [Answers(id)];
    assert events[..0] == [];
    ResultsFollow(codec, msgs);
  }

  lemma EventsOfTwo(a: ChatMessage, b: ChatMessage)
    ensures ChatEvents([a, b]) == EventsBy(a) + EventsBy(b)
  {
    CollectSnoc([a], b, EventsBy);
    CollectOne(a, EventsBy);
    assert [a] + [b] == [a, b];
  }
}
