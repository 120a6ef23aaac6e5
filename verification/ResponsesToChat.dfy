/**
 * The translator from a Responses event stream to a Chat chunk stream
 * (internal/provider/stream_responses.go, ResponsesToChatTranslator).
 */
module ResponsesToChat {
  import opened Basics
  import opened Wire

  /** What an event asks the translator to do. */
  datatype Action =
    | Text(text: string)
    | Reason(text: string)
    | AddItem(key: string, callId: string, name: string)
    | Json(item: string, json: string)
    | DoneItem(key: string, arguments: string)
    | Complete(input: Option<int>, output: Option<int>)
    | Fail(message: string)
    | Nothing

  /** A decoded event: the model it names, if any, and what it asks. */
  datatype Input = Input(model: string, action: Action)

  function TypeOf(e: ResponsesEvent): string
    requires e.payload.Some?
  {
    if e.payload.value.typ != "" then e.payload.value.typ else e.event
  }

  function Or(a: string, b: string): string {
    if a != "" then a else b
  }

  /** The arguments of a finished item: a string wins, else the first value present, printed. */
  function ArgumentsString(primary: JsonArg, fallback: JsonArg): string {
    if primary.Str? then primary.text
    else if fallback.Str? then fallback.text
    else if primary.Other? then primary.printed
    else if fallback.Other? then fallback.printed
    else ""
  }

  predicate IsCall(item: Option<ItemField>) {
    item.Some? && (item.value.typ == "function_call" || item.value.typ == "custom_tool_call")
  }

  function FirstOf(a: Option<int>, b: Option<int>): Option<int> {
    if a.Some? then a else b
  }

  function UsagePair(p: ResponsesPayload): (Option<int>, Option<int>) {
    if p.response.None? || p.response.value.usage.None? then (None, None)
    else
      var u := p.response.value.usage.value;
      (FirstOf(u.input, u.prompt), FirstOf(u.output, u.completion))
  }

  function FailureText(p: ResponsesPayload): string {
    var message :=
      if p.error.Some? then p.error.value
      else if p.response.Some? && p.response.value.error.Some? then p.response.value.error.value
      else "";
    Or(message, p.printed)
  }

  function DecodeAction(typ: string, p: ResponsesPayload): Action {
    match typ
    case "response.output_text.delta" => if p.delta == "" then Nothing else Text(p.delta)
    case "response.output_item.added" =>
      if IsCall(p.item) then AddItem(Or(p.item.value.id, Or(p.itemId, p.item.value.callId)), p.item.value.callId,
        p.item.value.name)
      else Nothing
    case "response.function_call_arguments.delta" => if p.delta == "" then Nothing else Json(p.itemId, p.delta)
    case "response.custom_tool_call_input.delta" => if p.delta == "" then Nothing else Json(p.itemId, p.delta)
    case "response.output_item.done" =>
      if IsCall(p.item) then DoneItem(Or(p.item.value.id, p.itemId),
        ArgumentsString(p.item.value.arguments, p.item.value.input))
      else Nothing
    case "response.completed" => Complete(UsagePair(p).0, UsagePair(p).1)
    case "response.done" => Complete(UsagePair(p).0, UsagePair(p).1)
    case "response.incomplete" => Complete(UsagePair(p).0, UsagePair(p).1)
    case "error" => Fail(FailureText(p))
    case "response.failed" => Fail(FailureText(p))
    case "response.reasoning_summary_text.delta" => if p.delta == "" then Nothing else Reason(p.delta)
    case _ => Nothing
  }

  function Decode(e: ResponsesEvent): Input {
    if e.payload.None? then Input("", Nothing)
    else
      var p := e.payload.value;
      Input(if p.response.Some? then p.response.value.model else "", DecodeAction(TypeOf(e), p))
  }

  datatype State = State(
    model: string,
    id: string,
    roleSent: bool,
    toolIndex: nat,
    toolByItem: map<string, nat>,
    argsEmitted: set<int>,
    promptTokens: Option<int>,
    completionTokens: Option<int>,
    draws: nat,
    finished: bool)

  function Start(model: string, id: string): State {
    State(model, id, false, 0, map[], {}, None, None, 0, false)
  }

  function ChunkOf(s: State, delta: ChatDelta, finish: Option<string>, usage: Option<ChatUsage>): ChatFrame {
    Data(ChatChunk(s.id, s.model, [Choice(delta, finish)], usage))
  }

  function RoleFor(s: State): string {
    if s.roleSent then "" else "assistant"
  }

  function Usage(s: State): Option<ChatUsage> {
    if s.promptTokens.None? && s.completionTokens.None? then None
    else
      var total :=
        if s.promptTokens.Some? && s.completionTokens.Some? then Some(s.promptTokens.value + s.completionTokens.value)
        else None;
      Some(ChatUsage(s.promptTokens, s.completionTokens, total))
  }

  function Reason'(s: State): string {
    if s.toolIndex > 0 then "tool_calls" else "stop"
  }

  function Terminal(s: State): (State, seq<ChatFrame>) {
    (s.(finished := true), [ChunkOf(s, EMPTY_DELTA, Some(Reason'(s)), Usage(s)), Done])
  }

  /** The tool index of an item: its own, or the latest one when the item is unknown. */
  function IndexFor(s: State, key: string): nat {
    if key in s.toolByItem then s.toolByItem[key] else if s.toolIndex == 0 then 0 else s.toolIndex - 1
  }

  /** One chunk with this delta; the role goes with the first. */
  function Speak(s: State, content: Option<string>, reasoning: Option<string>, tools: seq<ToolDelta>): (State,
      seq<ChatFrame>) {
    (s.(roleSent := true), [ChunkOf(s, ChatDelta(RoleFor(s), content, reasoning, tools), None, None)])
  }

  function StartItem(ids: IdSource, s: State, key: string, callId: string, name: string): (State, seq<ChatFrame>) {
    var idx := if key in s.toolByItem then s.toolByItem[key] else s.toolIndex;
    var s' := s.(
      toolIndex := if key in s.toolByItem then s.toolIndex else s.toolIndex + 1,
      toolByItem := if key != "" then s.toolByItem[key := idx] else s.toolByItem,
      draws := if callId == "" then s.draws + 1 else s.draws);
    Speak(s', None, None, [ToolDelta(Some(idx), if callId == "" then "call_" + ids(s.draws) else callId, name, "")])
  }

  function AddArguments(s: State, idx: nat, json: string): (State, seq<ChatFrame>) {
    Speak(s.(argsEmitted := s.argsEmitted + {idx}), None, None, [ToolDelta(Some(idx), "", "", json)])
  }

  function Act(ids: IdSource, s: State, a: Action): (State, seq<ChatFrame>) {
    match a
    case Text(text) => Speak(s, Some(text), None, [])
    case Reason(text) => Speak(s, None, Some(text), [])
    case AddItem(key, callId, name) => StartItem(ids, s, key, callId, name)
    case Json(item, json) => AddArguments(s, IndexFor(s, item), json)
    case DoneItem(key, arguments) =>
      if IndexFor(s, key) in s.argsEmitted || arguments == "" then (s, [])
        else AddArguments(s, IndexFor(s, key), arguments)
    case Complete(input, output) =>
      Terminal(if input.Some? || output.Some? then s.(promptTokens := input, completionTokens := output) else s)
    case Fail(message) =>
      (s.(finished := true, roleSent := true),
       [ChunkOf(s, ChatDelta(RoleFor(s), Some("[Error] " + message), None, []), Some("stop"), None), Done])
    case Nothing => (s, [])
  }

  function Step(ids: IdSource, s: State, x: Input): (State, seq<ChatFrame>) {
    if s.finished then (s, []) else Act(ids, s.(model := if s.model == "" then x.model else s.model), x.action)
  }

  function Finish(s: State): (State, seq<ChatFrame>) {
    if s.finished then (s, []) else Terminal(s)
  }

  function Run(ids: IdSource, s: State, xs: seq<Input>): (State, seq<ChatFrame>) {
    if xs == [] then (s, [])
    else
      var (s1, fs1) := Run(ids, s, xs[..|xs| - 1]);
      var (s2, fs2) := Step(ids, s1, xs[|xs| - 1]);
      (s2, fs1 + fs2)
  }

  function Inputs(events: seq<ResponsesEvent>): (r: seq<Input>)
    ensures |r| == |events|
    ensures forall k :: 0 <= k < |events| ==> r[k] == Decode(events[k])
  {
    seq(|events|, k requires 0 <= k < |events| => Decode(events[k]))
  }

  function Stream(ids: IdSource, model: string, id: string, xs: seq<Input>): seq<ChatFrame> {
    var (s, fs) := Run(ids, Start(model, id), xs);
    fs + Finish(s).1
  }

  // ----- The translator as it runs -----

  class ResponsesToChatTranslator {
    const ids: IdSource
    const id: string
    var model: string
    var roleSent: bool
    var toolIndex: nat
    var toolByItem: map<string, nat>
    var argsEmitted: set<int>
    var promptTokens: Option<int>
    var completionTokens: Option<int>
    var draws: nat
    var finished: bool

    ghost function Model(): State
      reads this
    {
      State(model, id, roleSent, toolIndex, toolByItem, argsEmitted, promptTokens, completionTokens, draws, finished)
    }

    /** The empty key is never recorded. */
    predicate NoEmptyKey()
      reads this
    {
      "" !in toolByItem
    }

    constructor (ids: IdSource, model: string, id: string)
      ensures Model() == Start(model, id) && this.ids == ids && NoEmptyKey()
    {
      this.ids, this.id, this.model := ids, id, model;
      roleSent, toolIndex, toolByItem, argsEmitted, draws, finished := false, 0, map[], {}, 0, false;
      promptTokens, completionTokens := None, None;
    }

    method Delta(content: Option<string>, reasoning: Option<string>, tools: seq<ToolDelta>)
      returns (frames: seq<ChatFrame>)
      modifies this`roleSent
      ensures Model() == Speak(old(Model()), content, reasoning, tools).0
      ensures frames == Speak(old(Model()), content, reasoning, tools).1
    {
      var delta := ChatDelta("", content, reasoning, tools);
      if !roleSent {
        roleSent := true;
        delta := delta.(role := "assistant");
      }
      frames := [Data(ChatChunk(id, model, [Choice(delta, None)], None))];
    }

    method FinalChunk(reason: string) returns (frame: ChatFrame)
      ensures frame == ChunkOf(Model(), EMPTY_DELTA, Some(reason), Usage(Model()))
    {
      var chunk := ChatChunk(id, model, [Choice(EMPTY_DELTA, Some(reason))], None);
      if promptTokens.Some? || completionTokens.Some? {
        var total := None;
        if promptTokens.Some? && completionTokens.Some? {
          total := Some(promptTokens.value + completionTokens.value);
        }
        chunk := chunk.(usage := Some(ChatUsage(promptTokens, completionTokens, total)));
      }
      frame := Data(chunk);
    }

    method TerminalFrames() returns (frames: seq<ChatFrame>)
      modifies this`finished
      ensures Model() == Terminal(old(Model())).0 && frames == Terminal(old(Model())).1
    {
      finished := true;
      var reason := "stop";
      if toolIndex > 0 { reason := "tool_calls"; }
      var last := FinalChunk(reason);
      frames := [last];
      frames := frames + [Done];
    }

    method FinishStream() returns (frames: seq<ChatFrame>)
      modifies this
      ensures Model() == Finish(old(Model())).0 && frames == Finish(old(Model())).1
    {
      if finished { return []; }
      frames := TerminalFrames();
    }

    method ItemAdded(p: ResponsesPayload) returns (frames: seq<ChatFrame>)
      requires NoEmptyKey() && IsCall(p.item)
      modifies this
      ensures
        var key := Or(p.item.value.id, Or(p.itemId, p.item.value.callId));
        Model() == StartItem(ids, old(Model()), key, p.item.value.callId, p.item.value.name).0 &&
        frames == StartItem(ids, old(Model()), key, p.item.value.callId, p.item.value.name).1
      ensures NoEmptyKey()
    {
      var key := p.item.value.id;
      if key == "" { key := p.itemId; }
      if key == "" { key := p.item.value.callId; }
      var idx := toolIndex;
      if key in toolByItem {
        idx := toolByItem[key];
      } else {
        toolIndex := toolIndex + 1;
        if key != "" { toolByItem := toolByItem[key := idx]; }
      }
      var callId := p.item.value.callId;
      if callId == "" {
        callId := "call_" + ids(draws);
        draws := draws + 1;
      }
      frames := Delta(None, None, [ToolDelta(Some(idx), callId, p.item.value.name, "")]);
    }

    method KnownIndex(key: string) returns (idx: nat)
      ensures idx == IndexFor(Model(), key)
    {
      var i := toolIndex - 1;
      if key in toolByItem { i := toolByItem[key]; }
      if i < 0 { i := 0; }
      idx := i;
    }

    method ArgumentsReceived(p: ResponsesPayload) returns (frames: seq<ChatFrame>)
      modifies this`argsEmitted, this`roleSent
      ensures
        var a := if p.delta == "" then Nothing else Json(p.itemId, p.delta);
        Model() == Act(ids, old(Model()), a).0 && frames == Act(ids, old(Model()), a).1
    {
      if p.delta == "" { return []; }
      var idx := KnownIndex(p.itemId);
      argsEmitted := argsEmitted + {idx};
      frames := Delta(None, None, [ToolDelta(Some(idx), "", "", p.delta)]);
    }

    method ItemDone(p: ResponsesPayload) returns (frames: seq<ChatFrame>)
      requires IsCall(p.item)
      modifies this`argsEmitted, this`roleSent
      ensures
        var a := DoneItem(Or(p.item.value.id, p.itemId), ArgumentsString(p.item.value.arguments, p.item.value.input));
        Model() == Act(ids, old(Model()), a).0 && frames == Act(ids, old(Model()), a).1
    {
      var key := p.item.value.id;
      if key == "" { key := p.itemId; }
      var idx := KnownIndex(key);
      if idx in argsEmitted { return []; }
      var args := ArgumentsString(p.item.value.arguments, p.item.value.input);
      if args == "" { return []; }
      argsEmitted := argsEmitted + {idx};
      frames := Delta(None, None, [ToolDelta(Some(idx), "", "", args)]);
    }

    method Completed(p: ResponsesPayload) returns (frames: seq<ChatFrame>)
      modifies this`promptTokens, this`completionTokens, this`finished
      ensures
        var a := Complete(UsagePair(p).0, UsagePair(p).1);
        Model() == Act(ids, old(Model()), a).0 && frames == Act(ids, old(Model()), a).1
    {
      var (input, output) := UsagePair(p);
      if input.Some? || output.Some? { promptTokens, completionTokens := input, output; }
      frames := TerminalFrames();
    }

    method Failed(p: ResponsesPayload) returns (frames: seq<ChatFrame>)
      modifies this`finished, this`roleSent
      ensures Model() == Act(ids, old(Model()), Fail(FailureText(p))).0
      ensures frames == Act(ids, old(Model()), Fail(FailureText(p))).1
    {
      var message := "";
      if p.error.Some? {
        message := p.error.value;
      } else if p.response.Some? && p.response.value.error.Some? {
        message := p.response.value.error.value;
      }
      if message == "" { message := p.printed; }
      finished := true;
      var delta := ChatDelta("", Some("[Error] " + message), None, []);
      if !roleSent {
        roleSent := true;
        delta := delta.(role := "assistant");
      }
      frames := [Data(ChatChunk(id, model, [Choice(delta, Some("stop"))], None)), Done];
    }

    method Dispatch(typ: string, p: ResponsesPayload) returns (frames: seq<ChatFrame>)
      requires NoEmptyKey()
      modifies this
      ensures Model() == Act(ids, old(Model()), DecodeAction(typ, p)).0
      ensures frames == Act(ids, old(Model()), DecodeAction(typ, p)).1
      ensures NoEmptyKey()
    {
      frames := [];
      match typ
      case "response.output_text.delta" =>
        if p.delta != "" { frames := Delta(Some(p.delta), None, []); }
      case "response.output_item.added" =>
        if IsCall(p.item) { frames := ItemAdded(p); }
      case "response.function_call_arguments.delta" => frames := ArgumentsReceived(p);
      case "response.custom_tool_call_input.delta" => frames := ArgumentsReceived(p);
      case "response.output_item.done" =>
        if IsCall(p.item) { frames := ItemDone(p); }
      case "response.completed" => frames := Completed(p);
      case "response.done" => frames := Completed(p);
      case "response.incomplete" => frames := Completed(p);
      case "error" => frames := Failed(p);
      case "response.failed" => frames := Failed(p);
      case "response.reasoning_summary_text.delta" =>
        if p.delta != "" { frames := Delta(None, Some(p.delta), []); }
      case _ =>
    }

    method FeedEvent(e: ResponsesEvent) returns (frames: seq<ChatFrame>)
      requires NoEmptyKey()
      modifies this
      ensures Model() == Step(ids, old(Model()), Decode(e)).0 && frames == Step(ids, old(Model()), Decode(e)).1
      ensures NoEmptyKey()
    {
      if finished || e.payload.None? { return []; }
      var evt := e.payload.value;
      var typ := e.event;
      if evt.typ != "" { typ := evt.typ; }
      if model == "" && evt.response.Some? && evt.response.value.model != "" {
        model := evt.response.value.model;
      }
      frames := Dispatch(typ, evt);
    }
  }
}
