/**
 * The translator from an Anthropic event stream to a Chat chunk stream
 * (internal/provider/stream_anthropic.go, AnthropicToChatTranslator).
 */
module AnthropicToChat {
  import opened Basics
  import opened Wire

  function AnthropicStopToChat(stop: string): string {
    match stop
    case "max_tokens" => "length"
    case "tool_use" => "tool_calls"
    case "refusal" => "content_filter"
    case _ => "stop"
  }

  /** What an event asks the translator to do; -1 stands for a missing block index. */
  datatype Action =
    | Begin(message: Option<MessageField>)
    | OpenTool(block: int, id: string, name: string)
    | Text(text: string)
    | Json(block: int, json: string)
    | Conclude(usage: Option<Option<int>>, stop: Option<string>)
    | Halt
    | Fail(reason: string)
    | Nothing

  /** The type in the payload wins over the name of the event. */
  function TypeOf(e: AnthropicEvent): string
    requires e.payload.Some?
  {
    if e.payload.value.typ != "" then e.payload.value.typ else e.event
  }

  function Decode(e: AnthropicEvent): Action {
    if e.payload.None? then Nothing
    else
      var p, block := e.payload.value, e.payload.value.index.GetOr(-1);
      match TypeOf(e)
      case "message_start" => Begin(p.message)
      case "content_block_start" => DecodeStart(block, p.contentBlock)
      case "content_block_delta" => DecodeDelta(block, p.delta)
      case "message_delta" => Conclude(p.usage, if p.delta.Some? then p.delta.value.stopReason else None)
      case "message_stop" => Halt
      case "error" => Fail(if p.error.GetOr("") != "" then p.error.value else e.raw)
      case _ => Nothing
  }

  function DecodeStart(block: int, head: Option<BlockField>): Action {
    if head.None? || head.value.typ != "tool_use" then Nothing else OpenTool(block, head.value.id, head.value.name)
  }

  function DecodeDelta(block: int, delta: Option<DeltaField>): Action {
    if delta.None? then Nothing
    else if delta.value.typ == "text_delta" && delta.value.text != "" then Text(delta.value.text)
    else if delta.value.typ == "input_json_delta" && delta.value.partialJson != ""
      then Json(block, delta.value.partialJson)
    else Nothing
  }

  datatype State = State(
    model: string,
    id: string,
    roleSent: bool,
    toolIndex: nat,
    finishReason: string,
    toolByBlock: map<int, nat>,
    toolStarted: set<int>,
    promptTokens: Option<int>,
    completionTokens: Option<int>,
    draws: nat,
    finished: bool)

  function Start(model: string, id: string): State {
    State(model, id, false, 0, "", map[], {}, None, None, 0, false)
  }

  function ChunkOf(s: State, delta: ChatDelta, finish: Option<string>, usage: Option<ChatUsage>): ChatFrame {
    Data(ChatChunk(s.id, s.model, [Choice(delta, finish)], usage))
  }

  /** The role goes with the first delta only. */
  function RoleFor(s: State): string {
    if s.roleSent then "" else "assistant"
  }

  function Usage(s: State): Option<ChatUsage> {
    if s.promptTokens.None? && s.completionTokens.None? then None
    else
      var total :=
        if s.promptTokens.Some? && s.completionTokens.Some? then Some(s.promptTokens.value + s.completionTokens.value)
        else None;
      Some(ChatUsage(s.promptTokens, s.completionTokens, total))
  }

  function Reason(s: State): string {
    if s.finishReason != "" then s.finishReason else if s.toolIndex > 0 then "tool_calls" else "stop"
  }

  function Terminal(s: State): (State, seq<ChatFrame>) {
    (s.(finished := true), [ChunkOf(s, EMPTY_DELTA, Some(Reason(s)), Usage(s)), Done])
  }

  /** The tool index an argument fragment goes to. */
  function JsonIndex(s: State, block: int): nat {
    if block in s.toolByBlock then s.toolByBlock[block] else if s.toolIndex == 0 then 0 else s.toolIndex - 1
  }

  function DrawId(ids: IdSource, s: State): string {
    "call_" + ids(s.draws)
  }

  function StartTool(ids: IdSource, s: State, block: int, id: string, name: string): (State, seq<ChatFrame>) {
    var idx := if block in s.toolByBlock then s.toolByBlock[block] else s.toolIndex;
    var s' := s.(
      toolIndex := if block in s.toolByBlock then s.toolIndex else s.toolIndex + 1,
      toolByBlock := if block >= 0 then s.toolByBlock[block := idx] else s.toolByBlock,
      toolStarted := s.toolStarted + {idx},
      draws := if id == "" then s.draws + 1 else s.draws,
      roleSent := true);
    var call := ToolDelta(Some(idx), if id == "" then DrawId(ids, s) else id, name, "");
    (s', [ChunkOf(s, ChatDelta(RoleFor(s), None, None, [call]), None, None)])
  }

  function AddJson(ids: IdSource, s: State, block: int, json: string): (State, seq<ChatFrame>) {
    var idx := JsonIndex(s, block);
    var fragment := ToolDelta(Some(idx), "", "", json);
    if idx in s.toolStarted then
      (s.(roleSent := true), [ChunkOf(s, ChatDelta(RoleFor(s), None, None, [fragment]), None, None)])
    else
      (s.(toolStarted := s.toolStarted + {idx}, draws := s.draws + 1, roleSent := true),
       [ChunkOf(s, ChatDelta(RoleFor(s), None, None, [ToolDelta(Some(idx), DrawId(ids, s), "", "")]), None, None),
        ChunkOf(s, ChatDelta("", None, None, [fragment]), None, None)])
  }

  function Act(ids: IdSource, s: State, a: Action): (State, seq<ChatFrame>) {
    match a
    case Begin(message) =>
      (if message.None? then s
       else s.(model := if s.model == "" then message.value.model else s.model,
               promptTokens := if message.value.usage.Some? then message.value.usage.value else s.promptTokens), [])
    case OpenTool(block, id, name) => StartTool(ids, s, block, id, name)
    case Text(text) =>
      (s.(roleSent := true), [ChunkOf(s, ChatDelta(RoleFor(s), Some(text), None, []), None, None)])
    case Json(block, json) => AddJson(ids, s, block, json)
    case Conclude(usage, stop) =>
      Terminal(s.(completionTokens := if usage.Some? then usage.value else s.completionTokens,
                  finishReason := if stop.Some? then AnthropicStopToChat(stop.value) else s.finishReason))
    case Halt => Terminal(s)
    case Fail(reason) =>
      (s.(finished := true, roleSent := true),
       [ChunkOf(s, ChatDelta(RoleFor(s), Some("[Error] " + reason), None, []), Some("stop"), None), Done])
    case Nothing => (s, [])
  }

  function Step(ids: IdSource, s: State, a: Action): (State, seq<ChatFrame>) {
    if s.finished then (s, []) else Act(ids, s, a)
  }

  function Finish(s: State): (State, seq<ChatFrame>) {
    if s.finished then (s, []) else Terminal(s)
  }

  function Run(ids: IdSource, s: State, actions: seq<Action>): (State, seq<ChatFrame>) {
    if actions == [] then (s, [])
    else
      var (s1, fs1) := Run(ids, s, actions[..|actions| - 1]);
      var (s2, fs2) := Step(ids, s1, actions[|actions| - 1]);
      (s2, fs1 + fs2)
  }

  function Actions(events: seq<AnthropicEvent>): (r: seq<Action>)
    ensures |r| == |events|
    ensures forall k :: 0 <= k < |events| ==> r[k] == Decode(events[k])
  {
    seq(|events|, k requires 0 <= k < |events| => Decode(events[k]))
  }

  /** Everything a client receives. */
  function Stream(ids: IdSource, model: string, id: string, actions: seq<Action>): seq<ChatFrame> {
    var (s, fs) := Run(ids, Start(model, id), actions);
    fs + Finish(s).1
  }

  // ----- The translator as it runs -----

  class AnthropicToChatTranslator {
    const ids: IdSource
    const id: string
    var model: string
    var roleSent: bool
    var toolIndex: nat
    var finishReason: string
    var toolByBlock: map<int, nat>
    var toolStarted: set<int>
    var promptTokens: Option<int>
    var completionTokens: Option<int>
    var draws: nat
    var finished: bool

    ghost function Model(): State
      reads this
    {
      State(model, id, roleSent, toolIndex, finishReason, toolByBlock, toolStarted, promptTokens, completionTokens,
        draws, finished)
    }

    constructor (ids: IdSource, model: string, id: string)
      ensures Model() == Start(model, id) && this.ids == ids && NoMissingKey()
    {
      this.ids, this.id, this.model := ids, id, model;
      roleSent, toolIndex, finishReason, finished := false, 0, "", false;
      toolByBlock, toolStarted, draws := map[], {}, 0;
      promptTokens, completionTokens := None, None;
    }

    method Delta(content: Option<string>, tools: seq<ToolDelta>) returns (delta: ChatDelta)
      modifies this`roleSent
      ensures Model() == old(Model()).(roleSent := true)
      ensures delta == ChatDelta(RoleFor(old(Model())), content, None, tools)
    {
      delta := ChatDelta("", content, None, tools);
      if !roleSent {
        roleSent := true;
        delta := delta.(role := "assistant");
      }
    }

    method Chunk(delta: ChatDelta, finish: Option<string>) returns (frame: ChatFrame)
      ensures frame == ChunkOf(Model(), delta, finish, None)
    {
      frame := Data(ChatChunk(id, model, [Choice(delta, finish)], None));
    }

    method FinalChunk(reason: string) returns (frame: ChatFrame)
      ensures frame == ChunkOf(Model(), EMPTY_DELTA, Some(reason), Usage(Model()))
    {
      var chunk := ChatChunk(id, model, [Choice(EMPTY_DELTA, Some(reason))], None);
      if promptTokens.Some? || completionTokens.Some? {
        var total := None;
        if promptTokens.Some? && completionTokens.Some? {
          total := Some(promptTokens.value + completionTokens.value);
        }
        chunk := chunk.(usage := Some(ChatUsage(promptTokens, completionTokens, total)));
      }
      frame := Data(chunk);
    }

    method TerminalFrames() returns (frames: seq<ChatFrame>)
      modifies this`finished
      ensures Model() == Terminal(old(Model())).0 && frames == Terminal(old(Model())).1
    {
      finished := true;
      var reason := finishReason;
      if reason == "" {
        reason := "stop";
        if toolIndex > 0 { reason := "tool_calls"; }
      }
      var last := FinalChunk(reason);
      frames := [last];
      frames := frames + [Done];
    }

    method FinishStream() returns (frames: seq<ChatFrame>)
      modifies this
      ensures Model() == Finish(old(Model())).0 && frames == Finish(old(Model())).1
    {
      if finished { return []; }
      frames := TerminalFrames();
    }

    predicate NoMissingKey()
      reads this
    {
      forall b :: b in toolByBlock ==> b >= 0
    }

    method BlockStarted(block: int, callField: string, name: string) returns (frames: seq<ChatFrame>)
      requires NoMissingKey()
      modifies this
      ensures Model() == StartTool(ids, old(Model()), block, callField, name).0
      ensures frames == StartTool(ids, old(Model()), block, callField, name).1
      ensures NoMissingKey()
    {
      var idx := toolIndex;
      if block >= 0 {
        if block in toolByBlock {
          idx := toolByBlock[block];
        } else {
          toolByBlock := toolByBlock[block := idx];
          toolIndex := toolIndex + 1;
        }
      } else {
        toolIndex := toolIndex + 1;
      }
      toolStarted := toolStarted + {idx};
      var callId := callField;
      if callId == "" {
        callId := "call_" + ids(draws);
        draws := draws + 1;
      }
      var delta := Delta(None, [ToolDelta(Some(idx), callId, name, "")]);
      var chunk := Chunk(delta, None);
      frames := [chunk];
    }

    method JsonReceived(block: int, json: string) returns (frames: seq<ChatFrame>)
      requires NoMissingKey()
      modifies this
      ensures Model() == AddJson(ids, old(Model()), block, json).0
      ensures frames == AddJson(ids, old(Model()), block, json).1
      ensures NoMissingKey()
    {
      var idx := toolIndex - 1;
      if block in toolByBlock { idx := toolByBlock[block]; }
      if idx < 0 { idx := 0; }
      frames := [];
      if idx !in toolStarted {
        toolStarted := toolStarted + {idx};
        var callId := "call_" + ids(draws);
        draws := draws + 1;
        var opening := Delta(None, [ToolDelta(Some(idx), callId, "", "")]);
        var first := Chunk(opening, None);
        var second := Chunk(ChatDelta("", None, None, [ToolDelta(Some(idx), "", "", json)]), None);
        return [first, second];
      }
      var delta := Delta(None, [ToolDelta(Some(idx), "", "", json)]);
      var chunk := Chunk(delta, None);
      frames := [chunk];
    }

    method TextReceived(text: string) returns (frames: seq<ChatFrame>)
      modifies this`roleSent
      ensures Model() == Act(ids, old(Model()), Text(text)).0 && frames == Act(ids, old(Model()), Text(text)).1
    {
      var delta := Delta(Some(text), []);
      var chunk := Chunk(delta, None);
      frames := [chunk];
    }

    method BlockDelta(block: int, delta: Option<DeltaField>) returns (frames: seq<ChatFrame>)
      requires NoMissingKey()
      modifies this
      ensures Model() == Act(ids, old(Model()), DecodeDelta(block, delta)).0
      ensures frames == Act(ids, old(Model()), DecodeDelta(block, delta)).1
      ensures NoMissingKey()
    {
      if delta.None? { return []; }
      if delta.value.typ == "text_delta" {
        if delta.value.text == "" { return []; }
        frames := TextReceived(delta.value.text);
        return;
      }
      if delta.value.typ == "input_json_delta" {
        if delta.value.partialJson == "" { return []; }
        frames := JsonReceived(block, delta.value.partialJson);
        return;
      }
      return [];
    }

    method Began(message: Option<MessageField>)
      modifies this`model, this`promptTokens
      ensures Model() == Act(ids, old(Model()), Begin(message)).0
    {
      if message.None? { return; }
      if model == "" && message.value.model != "" { model := message.value.model; }
      if message.value.usage.Some? { promptTokens := message.value.usage.value; }
    }

    method Concluded(usage: Option<Option<int>>, delta: Option<DeltaField>) returns (frames: seq<ChatFrame>)
      modifies this`completionTokens, this`finishReason, this`finished
      ensures
        var a := Conclude(usage, if delta.Some? then delta.value.stopReason else None);
        Model() == Act(ids, old(Model()), a).0 && frames == Act(ids, old(Model()), a).1
    {
      if usage.Some? { completionTokens := usage.value; }
      if delta.Some? && delta.value.stopReason.Some? {
        finishReason := AnthropicStopToChat(delta.value.stopReason.value);
      }
      frames := TerminalFrames();
    }

    method Failed(reason: string) returns (frames: seq<ChatFrame>)
      modifies this`finished, this`roleSent
      ensures Model() == Act(ids, old(Model()), Fail(reason)).0 && frames == Act(ids, old(Model()), Fail(reason)).1
    {
      finished := true;
      var delta := Delta(Some("[Error] " + reason), []);
      var chunk := Chunk(delta, Some("stop"));
      frames := [chunk, Done];
    }

    method FeedEvent(e: AnthropicEvent) returns (frames: seq<ChatFrame>)
      requires NoMissingKey()
      modifies this
      ensures Model() == Step(ids, old(Model()), Decode(e)).0 && frames == Step(ids, old(Model()), Decode(e)).1
      ensures NoMissingKey()
    {
      frames := [];
      if finished || e.payload.None? { return; }
      var evt := e.payload.value;
      var typ := e.event;
      if evt.typ != "" { typ := evt.typ; }
      var blockIndex := -1;
      if evt.index.Some? { blockIndex := evt.index.value; }
      match typ
      case "message_start" =>
        Began(evt.message);
      case "content_block_start" =>
        if evt.contentBlock.Some? && evt.contentBlock.value.typ == "tool_use" {
          frames := BlockStarted(blockIndex, evt.contentBlock.value.id, evt.contentBlock.value.name);
        }
      case "content_block_delta" =>
        frames := BlockDelta(blockIndex, evt.delta);
      case "message_delta" =>
        frames := Concluded(evt.usage, evt.delta);
      case "message_stop" =>
        frames := FinishStream();
      case "error" =>
        var message := "";
        if evt.error.Some? { message := evt.error.value; }
        if message == "" { message := e.raw; }
        frames := Failed(message);
      case _ =>
    }
  }
}
