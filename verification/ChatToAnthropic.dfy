/**
 * The translator from a Chat chunk stream to an Anthropic event stream
 * (internal/provider/stream_anthropic.go, ChatToAnthropicTranslator).
 * The functions give the values; the class at the end is the translator as it
 * runs, method by method, proved to compute exactly these values.
 */
module ChatToAnthropic {
  import opened Basics
  import opened Wire

  function ChatFinishToAnthropic(finish: string): string {
    match finish
    case "length" => "max_tokens"
    case "tool_calls" => "tool_use"
    case "function_call" => "tool_use"
    case "content_filter" => "refusal"
    case _ => "end_turn"
  }

  /** What one chunk asks for, piece by piece: some text, some thinking, a fragment of a tool call. */
  datatype Unit = Say(text: string) | Think(text: string) | Call(tool: int, id: string, name: string, arguments: string)

  function UnitOf(tc: ToolDelta): Unit {
    Call(tc.index.GetOr(0), tc.id, tc.name, tc.arguments)
  }

  function CallUnits(tools: seq<ToolDelta>): (us: seq<Unit>)
    ensures |us| == |tools|
    ensures forall k :: 0 <= k < |tools| ==> us[k] == UnitOf(tools[k])
  {
    seq(|tools|, k requires 0 <= k < |tools| => UnitOf(tools[k]))
  }

  function SayUnits(content: Option<string>): seq<Unit> {
    if content.GetOr("") != "" then [Say(content.value)] else []
  }

  function ThinkUnits(reasoning: Option<string>): seq<Unit> {
    if reasoning.GetOr("") != "" then [Think(reasoning.value)] else []
  }

  function UnitsOfDelta(delta: ChatDelta): seq<Unit> {
    SayUnits(delta.content) + ThinkUnits(delta.reasoning) + CallUnits(delta.tools)
  }

  function UnitsOf(chunk: ChatChunk): seq<Unit> {
    if chunk.choices == [] then [] else UnitsOfDelta(chunk.choices[0].delta)
  }

  predicate Finishes(chunk: ChatChunk) {
    chunk.choices != [] && chunk.choices[0].finish.Some?
  }

  // ----- Block bookkeeping -----

  datatype Kind = Closed | InText | InThinking | InTool

  /** Next block number, kind of the open block, block of each tool index, and how many random ids were drawn. */
  datatype Blocks = Blocks(next: nat, open: Kind, tools: map<int, nat>, draws: nat)

  const NO_BLOCKS := Blocks(0, Closed, map[], 0)

  function StopOpen(b: Blocks): seq<AnthropicFrame> {
    if b.open.Closed? then [] else [BlockStop(b.next - 1)]
  }

  function CallId(ids: IdSource, draws: nat, id: string): string {
    if id == "" then "call_" + ids(draws) else id
  }

  /** Text or thinking: continue the open block of that kind, or open one. */
  function EmitProse(b: Blocks, kind: Kind, head: BlockHead, delta: BlockDelta): (Blocks, seq<AnthropicFrame>) {
    if b.open == kind then (b, [BlockDeltaFrame(b.next - 1, delta)])
    else
      (b.(next := b.next + 1, open := kind),
       StopOpen(b) + [BlockStart(b.next, head), BlockDeltaFrame(b.next, delta)])
  }

  function Emit(ids: IdSource, b: Blocks, u: Unit): (Blocks, seq<AnthropicFrame>) {
    match u
    case Say(text) => EmitProse(b, InText, TextHead, TextDelta(text))
    case Think(text) => EmitProse(b, InThinking, ThinkingHead, ThinkingDelta(text))
    case Call(tool, id, name, arguments) =>
      if tool in b.tools then
        (b, if arguments == "" then [] else [BlockDeltaFrame(b.tools[tool], JsonDelta(arguments))])
      else
        (Blocks(b.next + 1, InTool, b.tools[tool := b.next], if id == "" then b.draws + 1 else b.draws),
         StopOpen(b) + [BlockStart(b.next, ToolHead(CallId(ids, b.draws, id), name))] +
         (if arguments == "" then [] else [BlockDeltaFrame(b.next, JsonDelta(arguments))]))
  }

  function EmitAll(ids: IdSource, b: Blocks, us: seq<Unit>): (Blocks, seq<AnthropicFrame>) {
    if us == [] then (b, [])
    else
      var (b1, fs1) := EmitAll(ids, b, us[..|us| - 1]);
      var (b2, fs2) := Emit(ids, b1, us[|us| - 1]);
      (b2, fs1 + fs2)
  }

  lemma {:induction false} EmitAllAppend(ids: IdSource, b: Blocks, us: seq<Unit>, vs: seq<Unit>)
    ensures
      var first := EmitAll(ids, b, us);
      var second := EmitAll(ids, first.0, vs);
      EmitAll(ids, b, us + vs).0 == second.0 && EmitAll(ids, b, us + vs).1 == first.1 + second.1
  {
    if vs == [] {
      assert us + vs == us;
    } else {
      var front := vs[..|vs| - 1];
      assert (us + vs)[..|us + vs| - 1] == us + front;
      EmitAllAppend(ids, b, us, front);
      var (b1, fs1) := EmitAll(ids, b, us);
      var (b2, fs2) := EmitAll(ids, b1, front);
      Assoc(fs1, fs2, Emit(ids, b2, vs[|vs| - 1]).1);
    }
  }

  lemma EmitAllSnoc(ids: IdSource, b: Blocks, us: seq<Unit>, u: Unit)
    ensures
      var (b1, fs1) := EmitAll(ids, b, us);
      EmitAll(ids, b, us + [u]).0 == Emit(ids, b1, u).0 &&
      EmitAll(ids, b, us + [u]).1 == fs1 + Emit(ids, b1, u).1
  {
    assert (us + [u])[..|us + [u]| - 1] == us;
  }

  // ----- The translator on whole chunks -----

  datatype State = State(model: string, id: string, started: bool, blocks: Blocks, finished: bool)

  function Closing(b: Blocks, stop: string, output: Option<int>): seq<AnthropicFrame> {
    StopOpen(b) + [MessageDelta(stop, output), MessageStop]
  }

  function Feed(ids: IdSource, s: State, data: Option<ChatChunk>): (State, seq<AnthropicFrame>) {
    if s.finished || data.None? then (s, [])
    else
      var chunk := data.value;
      var model := if s.model == "" then chunk.model else s.model;
      var head := if s.started then [] else [MessageStart(s.id, model)];
      var (b, body) := EmitAll(ids, s.blocks, UnitsOf(chunk));
      if Finishes(chunk) then
        (State(model, s.id, true, b.(open := Closed), true),
         head + body + Closing(b, ChatFinishToAnthropic(chunk.choices[0].finish.value), CompletionOf(chunk)))
      else (State(model, s.id, true, b, false), head + body)
  }

  function CompletionOf(chunk: ChatChunk): Option<int> {
    if chunk.usage.Some? then chunk.usage.value.completion else None
  }

  function Finish(s: State): (State, seq<AnthropicFrame>) {
    if s.finished then (s, [])
    else (s.(blocks := s.blocks.(open := Closed), finished := true), Closing(s.blocks, "end_turn", None))
  }

  function Run(ids: IdSource, s: State, input: seq<Option<ChatChunk>>): (State, seq<AnthropicFrame>) {
    if input == [] then (s, [])
    else
      var (s1, fs1) := Run(ids, s, input[..|input| - 1]);
      var (s2, fs2) := Feed(ids, s1, input[|input| - 1]);
      (s2, fs1 + fs2)
  }

  function Start(model: string, id: string): State {
    State(model, id, false, NO_BLOCKS, false)
  }

  /** Everything a client receives: a run on the whole input, ended by Finish. */
  function Stream(ids: IdSource, model: string, id: string, input: seq<Option<ChatChunk>>): seq<AnthropicFrame> {
    var (s, fs) := Run(ids, Start(model, id), input);
    fs + Finish(s).1
  }

  lemma {:induction false} RunAppend(ids: IdSource, s: State, xs: seq<Option<ChatChunk>>, ys: seq<Option<ChatChunk>>)
    ensures
      var (s1, fs1) := Run(ids, s, xs);
      var (s2, fs2) := Run(ids, s1, ys);
      Run(ids, s, xs + ys).0 == s2 && Run(ids, s, xs + ys).1 == fs1 + fs2
  {
    if ys == [] {
      assert xs + ys == xs;
    } else {
      var front := ys[..|ys| - 1];
      assert (xs + ys)[..|xs + ys| - 1] == xs + front;
      RunAppend(ids, s, xs, front);
      var (s1, fs1) := Run(ids, s, xs);
      var (s2, fs2) := Run(ids, s1, front);
      Assoc(fs1, fs2, Feed(ids, s2, ys[|ys| - 1]).1);
    }
  }

  // ----- The translator as it runs -----

  class ChatToAnthropicTranslator {
    const ids: IdSource
    const id: string
    var model: string
    var started: bool
    var blockIndex: nat
    var openBlock: Kind
    var toolBlocks: map<int, nat>
    var draws: nat
    var finished: bool

    ghost function Now(): Blocks
      reads this
    {
      Blocks(blockIndex, openBlock, toolBlocks, draws)
    }

    ghost function Model(): State
      reads this
    {
      State(model, id, started, Now(), finished)
    }

    constructor (ids: IdSource, model: string, id: string)
      ensures Model() == Start(model, id) && this.ids == ids
    {
      this.ids, this.id, this.model := ids, id, model;
      started, finished := false, false;
      blockIndex, openBlock, toolBlocks, draws := 0, Closed, map[], 0;
    }

    method CloseBlock() returns (frames: seq<AnthropicFrame>)
      modifies this`openBlock
      ensures frames == StopOpen(old(Now()))
      ensures Now() == old(Now()).(open := Closed)
    {
      if openBlock.Closed? { return []; }
      openBlock := Closed;
      return [BlockStop(blockIndex - 1)];
    }

    method TextFrames(text: string) returns (frames: seq<AnthropicFrame>)
      modifies this`openBlock, this`blockIndex
      ensures Now() == Emit(ids, old(Now()), Say(text)).0 && frames == Emit(ids, old(Now()), Say(text)).1
    {
      frames := [];
      if !openBlock.InText? {
        var stop := CloseBlock();
        frames := stop + [BlockStart(blockIndex, TextHead)];
        openBlock := InText;
        blockIndex := blockIndex + 1;
      }
      frames := frames + [BlockDeltaFrame(blockIndex - 1, TextDelta(text))];
    }

    method ThinkingFrames(text: string) returns (frames: seq<AnthropicFrame>)
      modifies this`openBlock, this`blockIndex
      ensures Now() == Emit(ids, old(Now()), Think(text)).0 && frames == Emit(ids, old(Now()), Think(text)).1
    {
      frames := [];
      if !openBlock.InThinking? {
        var stop := CloseBlock();
        frames := stop + [BlockStart(blockIndex, ThinkingHead)];
        openBlock := InThinking;
        blockIndex := blockIndex + 1;
      }
      frames := frames + [BlockDeltaFrame(blockIndex - 1, ThinkingDelta(text))];
    }

    method ToolFrames(tc: ToolDelta) returns (frames: seq<AnthropicFrame>)
      modifies this`openBlock, this`blockIndex, this`toolBlocks, this`draws
      ensures Now() == Emit(ids, old(Now()), UnitOf(tc)).0 && frames == Emit(ids, old(Now()), UnitOf(tc)).1
    {
      var chatIdx := 0;
      if tc.index.Some? { chatIdx := tc.index.value; }
      frames := [];
      if chatIdx !in toolBlocks {
        frames := CloseBlock();
        toolBlocks := toolBlocks[chatIdx := blockIndex];
        var callId := tc.id;
        if callId == "" {
          callId := "call_" + ids(draws);
          draws := draws + 1;
        }
        openBlock := InTool;
        frames := frames + [BlockStart(blockIndex, ToolHead(callId, tc.name))];
        blockIndex := blockIndex + 1;
      }
      if tc.arguments != "" {
        frames := frames + [BlockDeltaFrame(toolBlocks[chatIdx], JsonDelta(tc.arguments))];
      }
    }

    method CloseFrames(stop: string, output: Option<int>) returns (frames: seq<AnthropicFrame>)
      modifies this`openBlock
      ensures frames == Closing(old(Now()), stop, output)
      ensures Now() == old(Now()).(open := Closed)
    {
      frames := CloseBlock();
      frames := frames + [MessageDelta(stop, output)];
      frames := frames + [MessageStop];
    }

    /** The frames of the tool fragments of one delta. */
    method CallFrames(tools: seq<ToolDelta>) returns (frames: seq<AnthropicFrame>)
      modifies this`openBlock, this`blockIndex, this`toolBlocks, this`draws
      ensures Now() == EmitAll(ids, old(Now()), CallUnits(tools)).0
      ensures frames == EmitAll(ids, old(Now()), CallUnits(tools)).1
    {
      frames := [];
      ghost var start, calls := Now(), CallUnits(tools);
      for i := 0 to |tools|
        invariant Now() == EmitAll(ids, start, calls[..i]).0
        invariant frames == EmitAll(ids, start, calls[..i]).1
      {
        var fs := ToolFrames(tools[i]);
        frames := frames + fs;
        EmitAllSnoc(ids, start, calls[..i], calls[i]);
        assert calls[..i] + [calls[i]] == calls[..i + 1];
      }
      assert calls[..|tools|] == calls;
    }

    method ContentFrames(content: Option<string>) returns (frames: seq<AnthropicFrame>)
      modifies this`openBlock, this`blockIndex
      ensures Now() == EmitAll(ids, old(Now()), SayUnits(content)).0
      ensures frames == EmitAll(ids, old(Now()), SayUnits(content)).1
    {
      frames := [];
      if content.Some? && content.value != "" {
        EmitAllSnoc(ids, Now(), [], Say(content.value));
        frames := TextFrames(content.value);
      }
    }

    method ReasoningFrames(reasoning: Option<string>) returns (frames: seq<AnthropicFrame>)
      modifies this`openBlock, this`blockIndex
      ensures Now() == EmitAll(ids, old(Now()), ThinkUnits(reasoning)).0
      ensures frames == EmitAll(ids, old(Now()), ThinkUnits(reasoning)).1
    {
      frames := [];
      if reasoning.Some? && reasoning.value != "" {
        EmitAllSnoc(ids, Now(), [], Think(reasoning.value));
        frames := ThinkingFrames(reasoning.value);
      }
    }

    /** The middle of FeedChunk: the frames of one delta. */
    method DeltaFrames(delta: ChatDelta) returns (frames: seq<AnthropicFrame>)
      modifies this`openBlock, this`blockIndex, this`toolBlocks, this`draws
      ensures Now() == EmitAll(ids, old(Now()), UnitsOfDelta(delta)).0
      ensures frames == EmitAll(ids, old(Now()), UnitsOfDelta(delta)).1
    {
      ghost var start := Now();
      var said := ContentFrames(delta.content);
      var thought := ReasoningFrames(delta.reasoning);
      var called := CallFrames(delta.tools);
      frames := said + thought + called;
      EmitAllAppend(ids, start, SayUnits(delta.content), ThinkUnits(delta.reasoning));
      EmitAllAppend(ids, start, SayUnits(delta.content) + ThinkUnits(delta.reasoning), CallUnits(delta.tools));
    }

    method FeedChunk(data: Option<ChatChunk>) returns (frames: seq<AnthropicFrame>)
      modifies this
      ensures Model() == Feed(ids, old(Model()), data).0 && frames == Feed(ids, old(Model()), data).1
    {
      if finished || data.None? { return []; }
      var chunk := data.value;
      if model == "" && chunk.model != "" { model := chunk.model; }
      frames := [];
      if !started {
        started := true;
        frames := [MessageStart(id, model)];
      }
      if chunk.choices == [] { return; }
      var choice := chunk.choices[0];
      var body := DeltaFrames(choice.delta);
      frames := frames + body;
      if choice.finish.Some? {
        var output := None;
        if chunk.usage.Some? { output := chunk.usage.value.completion; }
        var close := CloseFrames(ChatFinishToAnthropic(choice.finish.value), output);
        frames := frames + close;
        finished := true;
      }
    }

    method FinishStream() returns (frames: seq<AnthropicFrame>)
      modifies this
      ensures Model() == Finish(old(Model())).0 && frames == Finish(old(Model())).1
    {
      if finished { return []; }
      finished := true;
      frames := CloseFrames("end_turn", None);
    }
  }
}
