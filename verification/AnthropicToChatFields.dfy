/**
 * The Chat reply a client reads, told from the fields of the Anthropic events
 * alone: what it says, how it finishes, and what an error does to it.
 */
module AnthropicToChatFields {
  import opened Basics
  import opened Wire
  import opened AnthropicToChat
  import opened AnthropicToChatProofs
  import opened ChatReader
  import opened ChatUnits

  // ----- The fields -----

  /** The event decodes, and is of this type: by its payload, or by its name when the payload has none. */
  predicate IsA(e: AnthropicEvent, typ: string) {
    e.payload.Some? && (e.payload.value.typ == typ || (e.payload.value.typ == "" && e.event == typ))
  }

  predicate IsEnd(e: AnthropicEvent) {
    IsA(e, "message_delta") || IsA(e, "message_stop") || IsA(e, "error")
  }

  /** The events up to and including the first that ends the stream. */
  function Heard(events: seq<AnthropicEvent>): seq<AnthropicEvent> {
    if events == [] then []
    else if IsEnd(events[0]) then [events[0]]
    else [events[0]] + Heard(events[1..])
  }

  /** The error's message, or the raw data when there is none. */
  function ErrorText(e: AnthropicEvent): string
    requires e.payload.Some?
  {
    match e.payload.value.error
    case None => e.raw
    case Some(message) => if message == "" then e.raw else message
  }

  predicate IsText(e: AnthropicEvent) {
    IsA(e, "content_block_delta") && e.payload.value.delta.Some? && e.payload.value.delta.value.typ == "text_delta"
  }

  predicate IsJson(e: AnthropicEvent) {
    IsA(e, "content_block_delta") && e.payload.value.delta.Some? &&
    e.payload.value.delta.value.typ == "input_json_delta"
  }

  predicate IsToolStart(e: AnthropicEvent) {
    IsA(e, "content_block_start") && e.payload.value.contentBlock.Some? &&
    e.payload.value.contentBlock.value.typ == "tool_use"
  }

  /** The text of the text deltas, and the error text. */
  function EventText(e: AnthropicEvent): string {
    if IsText(e) then e.payload.value.delta.value.text
    else if IsA(e, "error") then "[Error] " + ErrorText(e)
    else ""
  }

  function AllText(events: seq<AnthropicEvent>): string {
    if events == [] then "" else AllText(events[..|events| - 1]) + EventText(events[|events| - 1])
  }

  /** The event puts something in the reply. */
  predicate IsHeard(e: AnthropicEvent) {
    || (IsText(e) && e.payload.value.delta.value.text != "")
    || (IsJson(e) && e.payload.value.delta.value.partialJson != "")
    || IsToolStart(e) || IsA(e, "error")
  }

  /** The model the chunks name: the request's, or the first one a message start names. */
  function ModelIn(model: string, events: seq<AnthropicEvent>): string {
    if events == [] then model
    else
      var before, e := ModelIn(model, events[..|events| - 1]), events[|events| - 1];
      if before == "" && IsA(e, "message_start") && e.payload.value.message.Some?
        then e.payload.value.message.value.model else before
  }

  /** The input tokens the latest message start reports. */
  function PromptIn(events: seq<AnthropicEvent>): Option<int> {
    if events == [] then None
    else
      var e := events[|events| - 1];
      if IsA(e, "message_start") && e.payload.value.message.Some? && e.payload.value.message.value.usage.Some?
        then e.payload.value.message.value.usage.value
      else PromptIn(events[..|events| - 1])
  }

  /** The output tokens the message delta reports. */
  function CompletionIn(events: seq<AnthropicEvent>): Option<int> {
    if events != [] && IsA(events[|events| - 1], "message_delta")
      && events[|events| - 1].payload.value.usage.Some?
    then events[|events| - 1].payload.value.usage.value
    else None
  }

  // ----- What each event asks for -----

  /** Each action is asked for by these fields, and by nothing else. */
  lemma AsksFor(e: AnthropicEvent)
    ensures
      var a := Decode(e);
      && (a.Text? <==> IsText(e) && e.payload.value.delta.value.text != "")
      && (a.Json? <==> IsJson(e) && e.payload.value.delta.value.partialJson != "")
      && (a.OpenTool? <==> IsToolStart(e))
      && (a.Begin? <==> IsA(e, "message_start"))
      && (a.Conclude? <==> IsA(e, "message_delta"))
      && (a.Halt? <==> IsA(e, "message_stop"))
      && (a.Fail? <==> IsA(e, "error"))
  {
  }

  /** The details are those of the fields; a missing block index is -1. */
  lemma Details(e: AnthropicEvent)
    requires e.payload.Some?
    ensures
      var a, p := Decode(e), e.payload.value;
      var block := if p.index.Some? then p.index.value else -1;
      && (IsText(e) && p.delta.value.text != "" ==> a == Text(p.delta.value.text))
      && (IsJson(e) && p.delta.value.partialJson != "" ==> a == Json(block, p.delta.value.partialJson))
      && (IsToolStart(e) ==> a == OpenTool(block, p.contentBlock.value.id, p.contentBlock.value.name))
      && (IsA(e, "message_start") ==> a == Begin(p.message))
      && (IsA(e, "message_delta") ==>
            a == Conclude(p.usage, if p.delta.Some? then p.delta.value.stopReason else None))
      && (IsA(e, "error") ==> a == Fail(ErrorText(e)))
  {
  }

  // ----- The events that count -----

  lemma ActionsCons(e: AnthropicEvent, rest: seq<AnthropicEvent>)
    ensures Actions([e] + rest) == [Decode(e)] + Actions(rest)
  {
  }

  lemma ActionsSnoc(front: seq<AnthropicEvent>, e: AnthropicEvent)
    ensures Actions(front + [e]) == Actions(front) + [Decode(e)]
  {
  }

  lemma {:induction false} LiveFrom(a: seq<Action>, b: seq<Action>)
    ensures Live(a + b) == if Over(Live(a)) then Live(a) else Live(a) + Live(b)
  {
    if b == [] {
      assert a + b == a;
    } else {
      var front, last := b[..|b| - 1], b[|b| - 1];
      assert (a + b)[..|a + b| - 1] == a + front;
      LiveFrom(a, front);
      if !Over(Live(a)) { OverAppend(Live(a), Live(front)); }
    }
  }

  lemma OverAppend(a: seq<Action>, b: seq<Action>)
    requires !Over(a)
    ensures Over(a + b) <==> Over(b)
  {
    if b == [] { assert a + b == a; }
  }

  lemma LiveOne(a: Action)
    ensures Live([a]) == [a] && (Over([a]) <==> Ends(a))
  {
    assert [a][..0] == [] && Live([]) == [] && [] + [a] == [a];
  }

  lemma {:induction false} HeardIsLive(events: seq<AnthropicEvent>)
    ensures Actions(Heard(events)) == Live(Actions(events))
  {
    if events == [] {
      assert Actions(events) == [];
    } else {
      var e, rest := events[0], events[1..];
      assert events == [e] + rest;
      HeardIsLive(rest);
      AsksFor(e);
      LiveOne(Decode(e));
      LiveFrom([Decode(e)], Actions(rest));
      ActionsCons(e, rest);
      ActionsCons(e, Heard(rest));
      ActionsCons(e, []);
      assert Actions([]) == [] && [e] + [] == [e] && [Decode(e)] + [] == [Decode(e)];
    }
  }

  // ----- What they say -----

  lemma EventSays(e: AnthropicEvent)
    ensures TextOf(Decode(e)) == EventText(e)
    ensures Speaks(Decode(e)) <==> IsHeard(e)
  {
    AsksFor(e);
    if e.payload.Some? { Details(e); }
  }

  function Mapped(events: seq<AnthropicEvent>, decode: AnthropicEvent -> Action): seq<Action> {
    seq(|events|, i requires 0 <= i < |events| => decode(events[i]))
  }

  lemma {:induction false} MappedText(events: seq<AnthropicEvent>, decode: AnthropicEvent -> Action)
    requires forall e :: TextOf(decode(e)) == EventText(e)
    ensures TextIn(Mapped(events, decode)) == AllText(events)
  {
    if events != [] {
      var front, e := events[..|events| - 1], events[|events| - 1];
      MappedText(front, decode);
      assert Mapped(events, decode) == Mapped(front, decode) + [decode(e)];
      TextSnoc(Mapped(front, decode), decode(e));
    }
  }

  lemma TextIsAllText(events: seq<AnthropicEvent>)
    ensures TextIn(Actions(events)) == AllText(events)
  {
    forall e ensures TextOf(Decode(e)) == EventText(e) {
      EventSays(e);
    }
    MappedText(events, Decode);
    assert Actions(events) == Mapped(events, Decode);
  }

  lemma TextSnoc(front: seq<Action>, a: Action)
    ensures TextIn(front + [a]) == TextIn(front) + TextOf(a)
  {
    assert (front + [a])[..|front|] == front;
  }

  lemma SpokeIsHeard(events: seq<AnthropicEvent>)
    ensures Spoke(Actions(events)) <==> exists k :: 0 <= k < |events| && IsHeard(events[k])
  {
    forall k | 0 <= k < |events| ensures Speaks(Actions(events)[k]) <==> IsHeard(events[k]) {
      EventSays(events[k]);
    }
  }

  ghost predicate StartsTool(events: seq<AnthropicEvent>) {
    exists k :: 0 <= k < |events| && IsToolStart(events[k])
  }

  lemma {:induction false} SlotsStart(events: seq<AnthropicEvent>)
    ensures Slots(Actions(events)) != [] <==> StartsTool(events)
  {
    if events == [] {
      assert Actions(events) == [];
    } else {
      var front, e := events[..|events| - 1], events[|events| - 1];
      SlotsStart(front);
      AsksFor(e);
      assert events == front + [e];
      ActionsSnoc(front, e);
      SlotsSnoc(Actions(front), Decode(e));
      StartsSnoc(front, e);
    }
  }

  lemma StartsSnoc(front: seq<AnthropicEvent>, e: AnthropicEvent)
    ensures StartsTool(front + [e]) <==> StartsTool(front) || IsToolStart(e)
  {
    var all := front + [e];
    if IsToolStart(e) { assert IsToolStart(all[|front|]); }
    if StartsTool(front) {
      var k :| 0 <= k < |front| && IsToolStart(front[k]);
      assert IsToolStart(all[k]);
    }
  }

  // ----- How they finish -----

  /** The finish reason for a stop reason of Anthropic. */
  predicate FinishesFor(stop: string, finish: string) {
    && (stop == "max_tokens" ==> finish == "length")
    && (stop == "tool_use" ==> finish == "tool_calls")
    && (stop == "refusal" ==> finish == "content_filter")
    && (stop !in {"max_tokens", "tool_use", "refusal"} ==> finish == "stop")
  }

  /** An error stops the reply; a stop reason says how it ends; else it depends on whether a tool was started. */
  ghost predicate FinishesAs(events: seq<AnthropicEvent>, finish: string) {
    if events != [] && IsA(events[|events| - 1], "error") then finish == "stop"
    else if events != [] && IsA(events[|events| - 1], "message_delta") && events[|events| - 1].payload.value.delta.Some?
            && events[|events| - 1].payload.value.delta.value.stopReason.Some?
    then FinishesFor(events[|events| - 1].payload.value.delta.value.stopReason.value, finish)
    else finish == if StartsTool(events) then "tool_calls" else "stop"
  }

  lemma FinishTells(events: seq<AnthropicEvent>)
    ensures FinishesAs(events, FinishIn(Actions(events)))
  {
    SlotsStart(events);
    if events != [] {
      var e := events[|events| - 1];
      assert Actions(events)[|events| - 1] == Decode(e);
      AsksFor(e);
      if e.payload.Some? { Details(e); }
    }
  }

  // ----- The chunks -----

  /** Every chunk has the reply's id and one choice. */
  ghost predicate OneReplys(fs: seq<ChatFrame>, id: string) {
    forall k :: 0 <= k < |fs| && fs[k].Data? ==> fs[k].chunk.id == id && |fs[k].chunk.choices| == 1
  }

  lemma {:induction false} RunIsOneReplys(ids: IdSource, model: string, id: string, actions: seq<Action>)
    ensures Run(ids, Start(model, id), actions).0.id == id && OneReplys(Run(ids, Start(model, id), actions).1, id)
  {
    if actions != [] {
      var front, a := actions[..|actions| - 1], actions[|actions| - 1];
      RunIsOneReplys(ids, model, id, front);
      StepIsOneReplys(ids, Run(ids, Start(model, id), front).0, a);
    }
  }

  lemma StepIsOneReplys(ids: IdSource, s: State, a: Action)
    ensures Step(ids, s, a).0.id == s.id && OneReplys(Step(ids, s, a).1, s.id)
  {
  }

  ghost predicate NoneEnds(events: seq<AnthropicEvent>) {
    forall k :: 0 <= k < |events| ==> !IsEnd(events[k])
  }

  /** The model and the token count the translator holds while the stream goes on. */
  ghost predicate Holds(s: State, model: string, events: seq<AnthropicEvent>) {
    !s.finished && s.model == ModelIn(model, events) && s.promptTokens == PromptIn(events) && s.completionTokens.None?
  }

  lemma StepHolds(ids: IdSource, s: State, model: string, front: seq<AnthropicEvent>, e: AnthropicEvent)
    requires Holds(s, model, front) && !IsEnd(e)
    ensures Holds(Step(ids, s, Decode(e)).0, model, front + [e])
  {
    assert (front + [e])[..|front|] == front;
    AsksFor(e);
    if e.payload.Some? { Details(e); }
  }

  lemma {:induction false} RunHolds(ids: IdSource, model: string, id: string, events: seq<AnthropicEvent>)
    requires NoneEnds(events)
    ensures Holds(Run(ids, Start(model, id), Actions(events)).0, model, events)
  {
    if events == [] {
      assert Actions(events) == [];
    } else {
      var front, e := events[..|events| - 1], events[|events| - 1];
      RunHolds(ids, model, id, front);
      assert events == front + [e];
      ActionsSnoc(front, e);
      RunSnoc(ids, Start(model, id), Actions(front), Decode(e));
      StepHolds(ids, Run(ids, Start(model, id), Actions(front)).0, model, front, e);
    }
  }

  lemma RunSnoc(ids: IdSource, s: State, front: seq<Action>, a: Action)
    ensures
      var (s1, fs1) := Run(ids, s, front);
      Run(ids, s, front + [a]).0 == Step(ids, s1, a).0 && Run(ids, s, front + [a]).1 == fs1 + Step(ids, s1, a).1
  {
    assert (front + [a])[..|front|] == front;
  }

  /** The total is known when both counts are. */
  predicate Sums(usage: Option<ChatUsage>, prompt: Option<int>, completion: Option<int>) {
    match usage
    case None => prompt.None? && completion.None?
    case Some(u) =>
      && (prompt.Some? || completion.Some?) && u.prompt == prompt && u.completion == completion
      && match (prompt, completion)
         case (Some(p), Some(c)) => u.total == Some(p + c)
         case _ => u.total.None?
  }

  /** The last chunk names the model, and carries the token counts unless an error ended the stream. */
  ghost predicate LastChunk(last: ChatChunk, model: string, events: seq<AnthropicEvent>) {
    && last.model == ModelIn(model, events)
    && if events != [] && IsA(events[|events| - 1], "error") then last.usage.None?
       else Sums(last.usage, PromptIn(events), CompletionIn(events))
  }

  /** What comes after the end of a stream is passed over. */
  lemma {:induction false} RunLive(ids: IdSource, model: string, id: string, actions: seq<Action>)
    ensures Run(ids, Start(model, id), actions) == Run(ids, Start(model, id), Live(actions))
  {
    if actions != [] {
      var front, a := actions[..|actions| - 1], actions[|actions| - 1];
      RunLive(ids, model, id, front);
      RunReads(ids, model, id, front);
      if Over(Live(front)) {
        assert Run(ids, Start(model, id), front).1 + [] == Run(ids, Start(model, id), front).1;
      } else {
        RunSnoc(ids, Start(model, id), Live(front), a);
      }
    }
  }

  lemma StreamIsHeard(ids: IdSource, model: string, id: string, events: seq<AnthropicEvent>)
    ensures Stream(ids, model, id, Actions(events)) == Stream(ids, model, id, Actions(Heard(events)))
  {
    HeardIsLive(events);
    RunLive(ids, model, id, Actions(events));
  }

  lemma {:induction false} HeardEnds(events: seq<AnthropicEvent>)
    ensures EndsOnce(Heard(events))
  {
    if events != [] && !IsEnd(events[0]) {
      HeardEnds(events[1..]);
      EndsOnceCons(events[0], Heard(events[1..]));
    }
  }

  /** Nothing but the last event ends the stream. */
  ghost predicate EndsOnce(heard: seq<AnthropicEvent>) {
    NoneEnds(heard) || (heard != [] && NoneEnds(heard[..|heard| - 1]) && IsEnd(heard[|heard| - 1]))
  }

  lemma EndsOnceCons(e: AnthropicEvent, rest: seq<AnthropicEvent>)
    requires !IsEnd(e) && EndsOnce(rest)
    ensures EndsOnce([e] + rest)
  {
    var all := [e] + rest;
    if rest != [] { assert all[..|all| - 1] == [e] + rest[..|rest| - 1]; }
  }

  /** The frames of an ending event, or of the end of the input. */
  lemma EndFrames(ids: IdSource, s: State, model: string, front: seq<AnthropicEvent>, e: AnthropicEvent)
    returns (last: ChatChunk)
    requires Holds(s, model, front) && IsEnd(e)
    ensures Step(ids, s, Decode(e)).1 == [Data(last), Done] && Step(ids, s, Decode(e)).0.finished
    ensures LastChunk(last, model, front + [e])
  {
    AsksFor(e);
    Details(e);
    var fs := Step(ids, s, Decode(e)).1;
    last := fs[0].chunk;
    assert fs == [fs[0], fs[1]];
    assert (front + [e])[..|front|] == front && (front + [e])[|front|] == e;
  }

  lemma StreamEnds(ids: IdSource, model: string, id: string, events: seq<AnthropicEvent>)
    returns (body: seq<ChatFrame>, last: ChatChunk)
    ensures Stream(ids, model, id, Actions(events)) == body + [Data(last), Done]
    ensures LastChunk(last, model, Heard(events))
  {
    StreamIsHeard(ids, model, id, events);
    HeardEnds(events);
    body, last := HeardStreamEnds(ids, model, id, Heard(events));
  }

  lemma HeardStreamEnds(ids: IdSource, model: string, id: string, heard: seq<AnthropicEvent>)
    returns (body: seq<ChatFrame>, last: ChatChunk)
    requires EndsOnce(heard)
    ensures Stream(ids, model, id, Actions(heard)) == body + [Data(last), Done] && LastChunk(last, model, heard)
  {
    if NoneEnds(heard) {
      body, last := OpenEnds(ids, model, id, heard);
    } else {
      var front, e := heard[..|heard| - 1], heard[|heard| - 1];
      assert heard == front + [e];
      body, last := ClosedEnds(ids, model, id, front, e);
    }
  }

  /** The input ended before the stream did. */
  lemma OpenEnds(ids: IdSource, model: string, id: string, heard: seq<AnthropicEvent>)
    returns (body: seq<ChatFrame>, last: ChatChunk)
    requires NoneEnds(heard)
    ensures Stream(ids, model, id, Actions(heard)) == body + [Data(last), Done] && LastChunk(last, model, heard)
  {
    RunHolds(ids, model, id, heard);
    var (s, fs) := Run(ids, Start(model, id), Actions(heard));
    body := fs;
    last := FinishFrames(s, model, heard);
  }

  lemma FinishFrames(s: State, model: string, heard: seq<AnthropicEvent>) returns (last: ChatChunk)
    requires Holds(s, model, heard) && NoneEnds(heard)
    ensures Finish(s).1 == [Data(last), Done] && LastChunk(last, model, heard)
  {
    last := Finish(s).1[0].chunk;
    if heard != [] { assert !IsEnd(heard[|heard| - 1]); }
  }

  /** An event ended the stream. */
  lemma ClosedEnds(ids: IdSource, model: string, id: string, front: seq<AnthropicEvent>, e: AnthropicEvent)
    returns (body: seq<ChatFrame>, last: ChatChunk)
    requires NoneEnds(front) && IsEnd(e)
    ensures Stream(ids, model, id, Actions(front + [e])) == body + [Data(last), Done]
    ensures LastChunk(last, model, front + [e])
  {
    RunHolds(ids, model, id, front);
    ActionsSnoc(front, e);
    RunSnoc(ids, Start(model, id), Actions(front), Decode(e));
    var (s, fs) := Run(ids, Start(model, id), Actions(front));
    last := EndFrames(ids, s, model, front, e);
    body := fs;
    assert body + [Data(last), Done] + [] == body + [Data(last), Done];
  }

  // ----- The reply -----

  lemma StreamContent(ids: IdSource, model: string, id: string, actions: seq<Action>)
    ensures Content(Stream(ids, model, id, actions)) == TextIn(Live(actions))
  {
    var (s, fs) := Run(ids, Start(model, id), actions);
    TextSurvives(ids, model, id, actions);
    UnitsInAppend(fs, Finish(s).1);
    if s.finished {
      assert UnitsIn([]) == [];
    } else {
      EndUnits(Finish(s).1[0], None);
    }
    SaidAppend(UnitsIn(fs), UnitsIn(Finish(s).1));
    assert C.CallUnits([]) == [];
  }

  /**
   * The reply to every event sequence, told from its fields: one finish reason,
   * then [DONE], and the role once if anything is said; the content is the text
   * of the events up to the one that ends them, with the error's; the last
   * chunk names the model and has the token counts; every chunk has the id.
   */
  lemma FieldsTell(ids: IdSource, model: string, id: string, events: seq<AnthropicEvent>)
    returns (body: seq<ChatFrame>, last: ChatChunk)
    ensures
      var fs, heard := Stream(ids, model, id, Actions(events)), Heard(events);
      var reply := Read(Some(NO_REPLY), fs);
      && reply.Some? && reply.value.done && reply.value.finish.Some? && FinishesAs(heard, reply.value.finish.value)
      && (reply.value.role <==> exists k :: 0 <= k < |heard| && IsHeard(heard[k]))
      && Content(fs) == AllText(heard)
      && fs == body + [Data(last), Done] && LastChunk(last, model, heard) && OneReplys(fs, id)
  {
    var heard := Heard(events);
    HeardIsLive(events);
    StreamIsOneReply(ids, model, id, Actions(events));
    FinishTells(heard);
    SpokeIsHeard(heard);
    StreamContent(ids, model, id, Actions(events));
    TextIsAllText(heard);
    body, last := StreamEnds(ids, model, id, events);
    StreamIsOneReplys(ids, model, id, Actions(events));
  }

  lemma StreamIsOneReplys(ids: IdSource, model: string, id: string, actions: seq<Action>)
    ensures OneReplys(Stream(ids, model, id, actions), id)
  {
    RunIsOneReplys(ids, model, id, actions);
    assert OneReplys(Finish(Run(ids, Start(model, id), actions).0).1, id);
  }

  lemma {:induction false} HeardBefore(before: seq<AnthropicEvent>, e: AnthropicEvent, after: seq<AnthropicEvent>)
    requires NoneEnds(before) && IsEnd(e)
    ensures Heard(before + [e] + after) == before + [e]
  {
    var all := before + [e] + after;
    if before == [] {
      assert all[0] == e;
    } else {
      assert all[0] == before[0] && !IsEnd(before[0]) && all[1..] == before[1..] + [e] + after;
      HeardBefore(before[1..], e, after);
      assert before + [e] == [before[0]] + (before[1..] + [e]);
    }
  }

  /**
   * An error in the middle of a stream, named so by its payload or by its
   * event: the reply ends with it, whatever was started and whatever follows.
   */
  lemma ErrorEndsReply(ids: IdSource, model: string, id: string, before: seq<AnthropicEvent>, e: AnthropicEvent,
      after: seq<AnthropicEvent>)
    requires NoneEnds(before) && IsA(e, "error")
    ensures
      var fs := Stream(ids, model, id, Actions(before + [e] + after));
      && Read(Some(NO_REPLY), fs) == Some(Reply(true, Some("stop"), true))
      && Content(fs) == AllText(before) + ("[Error] " + ErrorText(e))
      && fs == Stream(ids, model, id, Actions(before + [e]))
  {
    HeardBefore(before, e, after);
    var _, _ := FieldsTell(ids, model, id, before + [e] + after);
    ErrorTells(before, e);
    SameHeard(ids, model, id, before + [e] + after, before + [e]) by {
      HeardBefore(before, e, []);
      assert before + [e] + [] == before + [e];
    }
  }

  lemma ErrorTells(before: seq<AnthropicEvent>, e: AnthropicEvent)
    requires IsA(e, "error")
    ensures
      var heard := before + [e];
      && heard[|heard| - 1] == e && (exists k :: 0 <= k < |heard| && IsHeard(heard[k]))
      && AllText(heard) == AllText(before) + ("[Error] " + ErrorText(e))
  {
    var heard := before + [e];
    assert IsHeard(heard[|before|]);
    assert heard[..|before|] == before;
    assert !IsText(e);
  }

  /** Streams of which the same is heard are the same. */
  lemma SameHeard(ids: IdSource, model: string, id: string, a: seq<AnthropicEvent>, b: seq<AnthropicEvent>)
    requires Heard(a) == Heard(b)
    ensures Stream(ids, model, id, Actions(a)) == Stream(ids, model, id, Actions(b))
  {
    StreamIsHeard(ids, model, id, a);
    StreamIsHeard(ids, model, id, b);
  }
}
