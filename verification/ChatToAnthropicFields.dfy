/**
 * The message an Anthropic client reads, told from the fields of the chunks
 * alone: which count, which blocks they open, and what stands in these.
 */
module ChatToAnthropicFields {
  import opened Basics
  import opened Wire
  import opened ChatToAnthropic
  import opened ChatToAnthropicProofs
  import U = ChatUnits

  // ----- The fields -----

  /** The decoded chunks, up to and including the first whose choice carries a finish reason. */
  function Used(input: seq<Option<ChatChunk>>): seq<ChatChunk> {
    if input == [] then []
    else
      match input[0]
      case None => Used(input[1..])
      case Some(chunk) =>
        if chunk.choices != [] && chunk.choices[0].finish.Some? then [chunk] else [chunk] + Used(input[1..])
  }

  function FieldText(field: Option<string>): string {
    match field
    case None => ""
    case Some(text) => text
  }

  /** The content fields of the first choices, one after the other. */
  function ContentText(chunks: seq<ChatChunk>): string {
    if chunks == [] then ""
    else
      var choices := chunks[|chunks| - 1].choices;
      ContentText(chunks[..|chunks| - 1]) + if choices == [] then "" else FieldText(choices[0].delta.content)
  }

  function ReasoningText(chunks: seq<ChatChunk>): string {
    if chunks == [] then ""
    else
      var choices := chunks[|chunks| - 1].choices;
      ReasoningText(chunks[..|chunks| - 1]) + if choices == [] then "" else FieldText(choices[0].delta.reasoning)
  }

  /** A fragment without an index is of tool 0. */
  predicate IsOf(t: ToolDelta, tool: int) {
    t.index == Some(tool) || (t.index.None? && tool == 0)
  }

  function FragmentText(tools: seq<ToolDelta>, tool: int): string {
    if tools == [] then ""
    else
      var t := tools[|tools| - 1];
      FragmentText(tools[..|tools| - 1], tool) + if IsOf(t, tool) then t.arguments else ""
  }

  function ArgumentText(chunks: seq<ChatChunk>, tool: int): string {
    if chunks == [] then ""
    else
      var choices := chunks[|chunks| - 1].choices;
      ArgumentText(chunks[..|chunks| - 1], tool) +
        if choices == [] then "" else FragmentText(choices[0].delta.tools, tool)
  }

  /** The first of these fragments for the tool. */
  function FirstFragment(tools: seq<ToolDelta>, tool: int): Option<ToolDelta> {
    if tools == [] then None
    else if IsOf(tools[0], tool) then Some(tools[0])
    else FirstFragment(tools[1..], tool)
  }

  function FirstOf(chunks: seq<ChatChunk>, tool: int): Option<ToolDelta> {
    if chunks == [] then None
    else
      var before, choices := FirstOf(chunks[..|chunks| - 1], tool), chunks[|chunks| - 1].choices;
      if before.Some? || choices == [] then before else FirstFragment(choices[0].delta.tools, tool)
  }

  // ----- The blocks they open -----

  /** Text that is not empty opens a block, unless the newest one is of its kind. */
  function WithProse(owners: seq<Owner>, owner: Owner, field: Option<string>): seq<Owner> {
    if FieldText(field) == "" || (owners != [] && owners[|owners| - 1] == owner) then owners else owners + [owner]
  }

  /** A fragment opens a block when it is its tool's first. */
  function WithTools(owners: seq<Owner>, tools: seq<ToolDelta>): seq<Owner> {
    if tools == [] then owners
    else
      var before, t := WithTools(owners, tools[..|tools| - 1]), tools[|tools| - 1];
      var owner := ByTool(if t.index.Some? then t.index.value else 0);
      if owner in before then before else before + [owner]
  }

  /** The blocks a stream opens: within a chunk for its content, then its reasoning, then its tools. */
  function Opened(chunks: seq<ChatChunk>): seq<Owner> {
    if chunks == [] then []
    else
      var before, choices := Opened(chunks[..|chunks| - 1]), chunks[|chunks| - 1].choices;
      if choices == [] then before
      else
        var delta := choices[0].delta;
        WithTools(WithProse(WithProse(before, ByText, delta.content), ByThinking, delta.reasoning), delta.tools)
  }

  predicate IsKind(owner: Owner, head: BlockHead) {
    match owner
    case ByText => head.TextHead?
    case ByThinking => head.ThinkingHead?
    case ByTool(_) => head.ToolHead?
  }

  // ----- The chunks that count -----

  lemma {:induction false} UsedIsLive(input: seq<Option<ChatChunk>>)
    ensures Used(input) == Live(input)
  {
    if input != [] {
      var first := [input[0]];
      assert input == first + input[1..];
      LiveFrom(first, input[1..]);
      assert first[..0] == [] && Live([]) == [];
      if input[0].Some? && !Stopped(Live(first)) {
        UsedIsLive(input[1..]);
        assert Live(first) == [input[0].value];
      } else if input[0].None? {
        UsedIsLive(input[1..]);
      }
    }
  }

  /** Once stopped, nothing counts any more; until then, everything counts as from the start. */
  lemma {:induction false} LiveFrom(a: seq<Option<ChatChunk>>, b: seq<Option<ChatChunk>>)
    ensures Live(a + b) == if Stopped(Live(a)) then Live(a) else Live(a) + Live(b)
  {
    if b == [] {
      assert a + b == a;
    } else {
      var front, last := b[..|b| - 1], b[|b| - 1];
      assert (a + b)[..|a + b| - 1] == a + front;
      LiveFrom(a, front);
      if !Stopped(Live(a)) { StoppedAppend(Live(a), Live(front)); }
    }
  }

  lemma StoppedAppend(a: seq<ChatChunk>, b: seq<ChatChunk>)
    requires !Stopped(a)
    ensures Stopped(a + b) <==> Stopped(b)
  {
    if b == [] { assert a + b == a; }
  }

  // ----- What a chunk's units say -----

  lemma SayText(field: Option<string>)
    ensures Said(SayUnits(field)) == FieldText(field) && Thought(SayUnits(field)) == ""
    ensures forall tool :: ArgumentsOf(SayUnits(field), tool) == "" && FirstCall(SayUnits(field), tool).None?
  {
    if SayUnits(field) != [] {
      var u := Say(field.value);
      U.SaidOne(u);
      forall tool ensures FirstCall([u], tool).None? { U.FirstOfOne(u, tool); }
    }
  }

  lemma ThinkText(field: Option<string>)
    ensures Said(ThinkUnits(field)) == "" && Thought(ThinkUnits(field)) == FieldText(field)
    ensures forall tool :: ArgumentsOf(ThinkUnits(field), tool) == "" && FirstCall(ThinkUnits(field), tool).None?
  {
    if ThinkUnits(field) != [] {
      var u := Think(field.value);
      U.SaidOne(u);
      forall tool ensures FirstCall([u], tool).None? { U.FirstOfOne(u, tool); }
    }
  }

  lemma {:induction false} CallTexts(tools: seq<ToolDelta>, tool: int)
    ensures ArgumentsOf(CallUnits(tools), tool) == FragmentText(tools, tool)
  {
    if tools != [] {
      var front, t := tools[..|tools| - 1], tools[|tools| - 1];
      CallTexts(front, tool);
      assert CallUnits(tools)[..|front|] == CallUnits(front);
      assert UnitOf(t).tool == tool <==> IsOf(t, tool);
    }
  }

  /** The unit of the fragment that introduces a tool. */
  function Introducing(t: Option<ToolDelta>): Option<Unit> {
    match t
    case None => None
    case Some(f) => Some(Call(if f.index.Some? then f.index.value else 0, f.id, f.name, f.arguments))
  }

  lemma {:induction false} CallFirst(tools: seq<ToolDelta>, tool: int)
    ensures FirstCall(CallUnits(tools), tool) == Introducing(FirstFragment(tools, tool))
  {
    if tools == [] {
      assert CallUnits(tools) == [];
    } else {
      var t, rest := tools[0], tools[1..];
      CallFirst(rest, tool);
      assert CallUnits(tools) == [UnitOf(t)] + CallUnits(rest);
      U.FirstCallAppend([UnitOf(t)], CallUnits(rest), tool);
      U.FirstOfOne(UnitOf(t), tool);
    }
  }

  lemma DeltaSays(delta: ChatDelta, tool: int)
    ensures Said(UnitsOfDelta(delta)) == FieldText(delta.content)
    ensures Thought(UnitsOfDelta(delta)) == FieldText(delta.reasoning)
    ensures ArgumentsOf(UnitsOfDelta(delta), tool) == FragmentText(delta.tools, tool)
    ensures FirstCall(UnitsOfDelta(delta), tool) == Introducing(FirstFragment(delta.tools, tool))
  {
    var a, b, c := SayUnits(delta.content), ThinkUnits(delta.reasoning), CallUnits(delta.tools);
    SayText(delta.content);
    ThinkText(delta.reasoning);
    CallTexts(delta.tools, tool);
    CallFirst(delta.tools, tool);
    U.CallsAreSilent(c);
    Together(a, b, tool);
    Together(a + b, c, tool);
  }

  lemma Together(a: seq<Unit>, b: seq<Unit>, tool: int)
    ensures Said(a + b) == Said(a) + Said(b) && Thought(a + b) == Thought(a) + Thought(b)
    ensures ArgumentsOf(a + b, tool) == ArgumentsOf(a, tool) + ArgumentsOf(b, tool)
    ensures FirstCall(a + b, tool) == if FirstCall(a, tool).Some? then FirstCall(a, tool) else FirstCall(b, tool)
  {
    U.SaidAppend(a, b);
    U.ThoughtAppend(a, b);
    U.ArgumentsAppend(a, b, tool);
    U.FirstCallAppend(a, b, tool);
  }

  lemma {:induction false} ChunksSay(chunks: seq<ChatChunk>, tool: int)
    ensures Said(Units(chunks)) == ContentText(chunks) && Thought(Units(chunks)) == ReasoningText(chunks)
    ensures ArgumentsOf(Units(chunks), tool) == ArgumentText(chunks, tool)
    ensures FirstCall(Units(chunks), tool) == Introducing(FirstOf(chunks, tool))
  {
    if chunks != [] {
      var front, last := chunks[..|chunks| - 1], chunks[|chunks| - 1];
      ChunksSay(front, tool);
      Together(Units(front), UnitsOf(last), tool);
      if last.choices != [] { DeltaSays(last.choices[0].delta, tool); }
    }
  }

  // ----- The blocks its units open -----

  lemma DraftSnoc(ids: IdSource, us: seq<Unit>, u: Unit)
    ensures DraftOf(ids, us + [u]) == Absorb(ids, DraftOf(ids, us), u)
  {
    assert (us + [u])[..|us|] == us;
  }

  lemma SayOpens(ids: IdSource, us: seq<Unit>, field: Option<string>)
    ensures DraftOf(ids, us + SayUnits(field)).owners == WithProse(DraftOf(ids, us).owners, ByText, field)
  {
    if SayUnits(field) == [] {
      assert us + [] == us;
    } else {
      DraftSnoc(ids, us, Say(field.value));
    }
  }

  lemma ThinkOpens(ids: IdSource, us: seq<Unit>, field: Option<string>)
    ensures DraftOf(ids, us + ThinkUnits(field)).owners == WithProse(DraftOf(ids, us).owners, ByThinking, field)
  {
    if ThinkUnits(field) == [] {
      assert us + [] == us;
    } else {
      DraftSnoc(ids, us, Think(field.value));
    }
  }

  lemma CallOpens(ids: IdSource, us: seq<Unit>, u: Unit)
    requires u.Call?
    ensures
      var before := DraftOf(ids, us).owners;
      DraftOf(ids, us + [u]).owners == if ByTool(u.tool) in before then before else before + [ByTool(u.tool)]
  {
    DraftSnoc(ids, us, u);
  }

  lemma CallUnitsLast(tools: seq<ToolDelta>)
    requires tools != []
    ensures CallUnits(tools) == CallUnits(tools[..|tools| - 1]) + [UnitOf(tools[|tools| - 1])]
  {
  }

  lemma {:induction false} CallsOpen(ids: IdSource, us: seq<Unit>, tools: seq<ToolDelta>)
    ensures DraftOf(ids, us + CallUnits(tools)).owners == WithTools(DraftOf(ids, us).owners, tools)
  {
    if tools == [] {
      assert us + CallUnits(tools) == us;
    } else {
      var calls, u := CallUnits(tools[..|tools| - 1]), UnitOf(tools[|tools| - 1]);
      CallsOpen(ids, us, tools[..|tools| - 1]);
      CallUnitsLast(tools);
      Assoc(us, calls, [u]);
      CallOpens(ids, us + calls, u);
    }
  }

  lemma {:induction false} ChunksOpen(ids: IdSource, chunks: seq<ChatChunk>)
    ensures DraftOf(ids, Units(chunks)).owners == Opened(chunks)
  {
    if chunks != [] {
      var front, last := chunks[..|chunks| - 1], chunks[|chunks| - 1];
      ChunksOpen(ids, front);
      var us := Units(front);
      if last.choices == [] {
        assert us + [] == us;
      } else {
        var delta := last.choices[0].delta;
        var a, b, c := SayUnits(delta.content), ThinkUnits(delta.reasoning), CallUnits(delta.tools);
        Assoc(us, a + b, c);
        Assoc(us, a, b);
        SayOpens(ids, us, delta.content);
        ThinkOpens(ids, us + a, delta.reasoning);
        CallsOpen(ids, us + a + b, delta.tools);
      }
    }
  }

  // ----- Nothing empty -----

  /** Text and thinking that is said is not empty. */
  ghost predicate Audible(us: seq<Unit>) {
    forall k :: 0 <= k < |us| && !us[k].Call? ==> us[k].text != ""
  }

  lemma {:induction false} ChunksAudible(chunks: seq<ChatChunk>)
    ensures Audible(Units(chunks))
  {
    if chunks != [] { ChunksAudible(chunks[..|chunks| - 1]); }
  }

  ghost predicate NoEmptyDelta(fs: seq<AnthropicFrame>) {
    forall k :: 0 <= k < |fs| && fs[k].BlockDeltaFrame? ==> fs[k].delta.text != ""
  }

  lemma {:induction false} UnitsNoEmptyDelta(ids: IdSource, b: Blocks, us: seq<Unit>)
    requires Audible(us)
    ensures NoEmptyDelta(EmitAll(ids, b, us).1)
  {
    if us != [] {
      var front, u := us[..|us| - 1], us[|us| - 1];
      UnitsNoEmptyDelta(ids, b, front);
      assert !u.Call? ==> u.text != "";
    }
  }

  ghost predicate NoEmptyProse(blocks: seq<Block>) {
    forall k :: 0 <= k < |blocks| && !blocks[k].head.ToolHead? ==> blocks[k].text != ""
  }

  lemma {:induction false} UnitsNoEmptyProse(ids: IdSource, us: seq<Unit>)
    requires Audible(us)
    ensures NoEmptyProse(DraftOf(ids, us).blocks)
  {
    if us != [] {
      var front, u := us[..|us| - 1], us[|us| - 1];
      UnitsNoEmptyProse(ids, front);
      assert !u.Call? ==> u.text != "";
      AbsorbNoEmptyProse(ids, DraftOf(ids, front), u);
    }
  }

  lemma AbsorbNoEmptyProse(ids: IdSource, d: Draft, u: Unit)
    requires |d.blocks| == |d.owners| && NoEmptyProse(d.blocks) && (!u.Call? ==> u.text != "")
    ensures NoEmptyProse(Absorb(ids, d, u).blocks)
  {
    var d' := Absorb(ids, d, u);
    assert forall k :: 0 <= k < |d.blocks| ==>
      d'.blocks[k].head == d.blocks[k].head && |d'.blocks[k].text| >= |d.blocks[k].text|;
  }

  // ----- The message -----

  /** The stop reason for a finish reason of Chat. */
  predicate StopsAs(finish: string, stop: string) {
    && (finish == "length" ==> stop == "max_tokens")
    && (finish == "tool_calls" || finish == "function_call" ==> stop == "tool_use")
    && (finish == "content_filter" ==> stop == "refusal")
    && (finish !in {"length", "tool_calls", "function_call", "content_filter"} ==> stop == "end_turn")
  }

  /** How the message ends: as the last chunk says, or by itself. */
  ghost predicate EndsAs(chunks: seq<ChatChunk>, stop: string, output: Option<int>)
    requires chunks != []
  {
    var last := chunks[|chunks| - 1];
    if last.choices != [] && last.choices[0].finish.Some? then
      && StopsAs(last.choices[0].finish.value, stop)
      && output == if last.usage.Some? then last.usage.value.completion else None
    else stop == "end_turn" && output.None?
  }

  /** Every block belongs to what opened it; a tool's has its first fragment's name and id and all its arguments. */
  ghost predicate BlocksAre(chunks: seq<ChatChunk>, blocks: seq<Block>) {
    var owners := Opened(chunks);
    && |blocks| == |owners|
    && (forall k :: 0 <= k < |blocks| ==> IsKind(owners[k], blocks[k].head))
    && forall k :: 0 <= k < |blocks| && owners[k].ByTool? ==> ToolBlockIs(chunks, owners[k].tool, blocks[k])
  }

  ghost predicate ToolBlockIs(chunks: seq<ChatChunk>, tool: int, block: Block) {
    var first := FirstOf(chunks, tool);
    && first.Some? && block.head.ToolHead? && block.text == ArgumentText(chunks, tool)
    && block.head.name == first.value.name && (first.value.id != "" ==> block.head.id == first.value.id)
  }

  lemma BlocksTell(ids: IdSource, chunks: seq<ChatChunk>)
    ensures BlocksAre(chunks, DraftOf(ids, Units(chunks)).blocks)
  {
    var us := Units(chunks);
    var d := DraftOf(ids, us);
    DraftConserves(ids, us);
    ChunksOpen(ids, chunks);
    forall k | 0 <= k < |d.blocks| ensures IsKind(d.owners[k], d.blocks[k].head) {
      assert Matches(d.owners[k], d.blocks[k].head);
    }
    forall k | 0 <= k < |d.blocks| && d.owners[k].ByTool? ensures ToolBlockIs(chunks, d.owners[k].tool, d.blocks[k]) {
      ChunksSay(chunks, d.owners[k].tool);
    }
  }

  /** The message is the one the chunks tell. */
  ghost predicate Tells(chunks: seq<ChatChunk>, model: string, id: string, m: Message)
    requires chunks != []
  {
    && m.id == id && m.model == (if model == "" then chunks[0].model else model)
    && TextOf(m.blocks) == ContentText(chunks) && ThinkingOf(m.blocks) == ReasoningText(chunks)
    && BlocksAre(chunks, m.blocks) && NoEmptyProse(m.blocks)
    && EndsAs(chunks, m.stop, m.output)
  }

  lemma MessageTells(ids: IdSource, model: string, id: string, chunks: seq<ChatChunk>)
    requires chunks != []
    ensures Tells(chunks, model, id, MessageOf(ids, model, id, chunks))
  {
    var us := Units(chunks);
    ChunksAudible(chunks);
    UnitsNoEmptyProse(ids, us);
    DraftConserves(ids, us);
    ChunksSay(chunks, 0);
    BlocksTell(ids, chunks);
    EndTells(chunks);
  }

  lemma EndTells(chunks: seq<ChatChunk>)
    requires chunks != []
    ensures EndsAs(chunks, StopIn(chunks), OutputIn(chunks))
  {
  }

  lemma StreamNoEmptyDelta(ids: IdSource, model: string, id: string, input: seq<Option<ChatChunk>>)
    ensures NoEmptyDelta(Stream(ids, model, id, input))
  {
    var chunks := Live(input);
    if chunks == [] {
      RunIs(ids, model, id, input);
    } else {
      var r := EmitAll(ids, NO_BLOCKS, Units(chunks));
      StreamIs(ids, model, id, input);
      ChunksAudible(chunks);
      UnitsNoEmptyDelta(ids, NO_BLOCKS, Units(chunks));
      FramedNoEmptyDelta(id, NameIn(model, chunks), r.1, r.0, StopIn(chunks), OutputIn(chunks));
    }
  }

  lemma FramedNoEmptyDelta(id: string, name: string, body: seq<AnthropicFrame>, b: Blocks, stop: string,
      output: Option<int>)
    requires NoEmptyDelta(body)
    ensures NoEmptyDelta([MessageStart(id, name)] + (body + Closing(b, stop, output)))
  {
    assert NoEmptyDelta(Closing(b, stop, output));
  }

  /**
   * The stream of every input, told from its fields: no delta is empty, and
   * the client reads one message with the blocks that content, reasoning and
   * tool fragments open, none of text or thinking empty; its text is the
   * content, its thinking the reasoning, each tool's block has that tool's
   * name, id and arguments; and it ends as the last chunk says. A stream in
   * which no chunk counts is no message.
   */
  lemma FieldsTell(ids: IdSource, model: string, id: string, input: seq<Option<ChatChunk>>)
    ensures
      var r := Read(false, Some(Waiting), Stream(ids, model, id, input));
      if Used(input) == [] then r == None
      else r.Some? && r.value.Complete? && Tells(Used(input), model, id, r.value.message)
    ensures NoEmptyDelta(Stream(ids, model, id, input))
  {
    UsedIsLive(input);
    StreamReads(false, ids, model, id, input);
    StreamNoEmptyDelta(ids, model, id, input);
    if Used(input) != [] { MessageTells(ids, model, id, Used(input)); }
  }
}
