/**
 * What the Anthropic stream written by ChatToAnthropicTranslator means to its
 * reader. `Read` is an independent client: it accepts frames one at a time,
 * rejects what the protocol does not allow and accumulates the message.
 */
module ChatToAnthropicProofs {
  import opened Basics
  import opened Wire
  import opened ChatToAnthropic

  // ----- The reader -----

  datatype Block = Block(head: BlockHead, text: string)

  datatype Message = Message(id: string, model: string, blocks: seq<Block>, stop: string, output: Option<int>)

  datatype Reader =
    | Waiting
    | Reading(id: string, model: string, blocks: seq<Block>, open: bool)
    | Ended(last: Message)
    | Complete(message: Message)

  predicate Fits(head: BlockHead, delta: BlockDelta) {
    match delta
    case TextDelta(_) => head.TextHead?
    case ThinkingDelta(_) => head.ThinkingHead?
    case JsonDelta(_) => head.ToolHead?
  }

  /**
   * One frame. Blocks are numbered 0, 1, 2, ..., at most one is open, and text
   * and thinking deltas address it. Tool argument deltas address a started
   * tool block, which a strict reader also wants to be the open one.
   */
  function ReadFrame(strict: bool, r: Reader, f: AnthropicFrame): Option<Reader> {
    match r
    case Waiting =>
      if f.MessageStart? then Some(Reading(f.id, f.model, [], false)) else None
    case Reading(id, model, blocks, open) => (
      match f
      case BlockStart(i, head) =>
        if !open && i == |blocks| then Some(Reading(id, model, blocks + [Block(head, "")], true)) else None
      case BlockDeltaFrame(i, delta) =>
        if 0 <= i < |blocks| && Fits(blocks[i].head, delta) &&
           ((delta.JsonDelta? && !strict) || (open && i == |blocks| - 1))
        then Some(Reading(id, model, Extended(blocks, i, delta.text), open)) else None
      case BlockStop(i) =>
        if open && i == |blocks| - 1 then Some(Reading(id, model, blocks, false)) else None
      case MessageDelta(stop, output) =>
        if !open then Some(Ended(Message(id, model, blocks, stop, output))) else None
      case _ => None
    )
    case Ended(last) => if f.MessageStop? then Some(Complete(last)) else None
    case Complete(_) => None
  }

  function Extended(blocks: seq<Block>, i: nat, text: string): (r: seq<Block>)
    requires i < |blocks|
  {
    blocks[i := Block(blocks[i].head, blocks[i].text + text)]
  }

  function Read(strict: bool, r: Option<Reader>, fs: seq<AnthropicFrame>): Option<Reader>
    decreases fs
  {
    if fs == [] || r.None? then r else Read(strict, ReadFrame(strict, r.value, fs[0]), fs[1..])
  }

  lemma {:induction false} ReadAppend(strict: bool, r: Option<Reader>, fs: seq<AnthropicFrame>, gs: seq<AnthropicFrame>)
    ensures Read(strict, r, fs + gs) == Read(strict, Read(strict, r, fs), gs)
    decreases fs
  {
    if fs == [] || r.None? {
      assert [] + gs == gs;
    } else {
      assert (fs + gs)[1..] == fs[1..] + gs;
      ReadAppend(strict, ReadFrame(strict, r.value, fs[0]), fs[1..], gs);
    }
  }

  // ----- What the Chat side says, block by block -----

  /** Who a block belongs to. */
  datatype Owner = ByText | ByThinking | ByTool(tool: int)

  /** The blocks a Chat stream describes: runs of text, runs of thinking, one block per tool index. */
  datatype Draft = Draft(blocks: seq<Block>, owners: seq<Owner>, draws: nat)

  const NO_DRAFT := Draft([], [], 0)

  ghost predicate ValidDraft(d: Draft) {
    && |d.blocks| == |d.owners|
    && (forall k :: 0 <= k < |d.owners| ==> Matches(d.owners[k], d.blocks[k].head))
    && (forall j, k :: 0 <= j < k < |d.owners| && d.owners[j].ByTool? ==> d.owners[j] != d.owners[k])
  }

  predicate Matches(owner: Owner, head: BlockHead) {
    match owner
    case ByText => head.TextHead?
    case ByThinking => head.ThinkingHead?
    case ByTool(_) => head.ToolHead?
  }

  predicate Newest(d: Draft, owner: Owner) {
    d.owners != [] && d.owners[|d.owners| - 1] == owner
  }

  function Added(d: Draft, owner: Owner, head: BlockHead, text: string): Draft {
    d.(blocks := d.blocks + [Block(head, text)], owners := d.owners + [owner])
  }

  function AbsorbProse(d: Draft, owner: Owner, head: BlockHead, text: string): Draft
    requires |d.blocks| == |d.owners|
  {
    if Newest(d, owner) then d.(blocks := Extended(d.blocks, |d.blocks| - 1, text)) else Added(d, owner, head, text)
  }

  function Absorb(ids: IdSource, d: Draft, u: Unit): Draft
    requires |d.blocks| == |d.owners|
  {
    match u
    case Say(text) => AbsorbProse(d, ByText, TextHead, text)
    case Think(text) => AbsorbProse(d, ByThinking, ThinkingHead, text)
    case Call(tool, id, name, arguments) =>
      if ByTool(tool) in d.owners then d.(blocks := Extended(d.blocks, IndexOf(d.owners, ByTool(tool)), arguments))
      else Added(d, ByTool(tool), ToolHead(CallId(ids, d.draws, id), name), arguments)
           .(draws := if id == "" then d.draws + 1 else d.draws)
  }

  function DraftOf(ids: IdSource, us: seq<Unit>): (d: Draft)
    ensures |d.blocks| == |d.owners|
  {
    if us == [] then NO_DRAFT else Absorb(ids, DraftOf(ids, us[..|us| - 1]), us[|us| - 1])
  }

  // ----- One step of the reader per unit -----

  /** The translator's bookkeeping agrees with the draft. */
  ghost predicate Linked(b: Blocks, d: Draft) {
    && ValidDraft(d)
    && b.next == |d.owners| && b.draws == d.draws
    && (forall i :: i in b.tools <==> ByTool(i) in d.owners)
    && (forall i :: i in b.tools ==> b.tools[i] < |d.owners| && d.owners[b.tools[i]] == ByTool(i))
    && (b.open.Closed? <==> d.owners == [])
    && (b.open.InText? <==> Newest(d, ByText))
    && (b.open.InThinking? <==> Newest(d, ByThinking))
  }

  function View(id: string, model: string, b: Blocks, d: Draft): Reader {
    Reading(id, model, d.blocks, !b.open.Closed?)
  }

  /** The fragment goes to a block other than the newest. */
  predicate GoesBack(d: Draft, u: Unit) {
    u.Call? && u.arguments != "" && ByTool(u.tool) in d.owners && !Newest(d, ByTool(u.tool))
  }

  lemma ToolBlockIs(b: Blocks, d: Draft, i: int)
    requires Linked(b, d) && i in b.tools
    ensures IndexOf(d.owners, ByTool(i)) == b.tools[i]
    ensures Newest(d, ByTool(i)) <==> b.tools[i] == b.next - 1
  {
    var k := IndexOf(d.owners, ByTool(i));
    assert d.owners[k] == d.owners[b.tools[i]];
  }

  lemma StopReads(strict: bool, id: string, model: string, b: Blocks, d: Draft)
    requires Linked(b, d)
    ensures Read(strict, Some(View(id, model, b, d)), StopOpen(b)) == Some(Reading(id, model, d.blocks, false))
  {
  }

  lemma OpenReads(strict: bool, id: string, model: string, blocks: seq<Block>, head: BlockHead, delta: BlockDelta)
    requires Fits(head, delta)
    ensures
      Read(strict, Some(Reading(id, model, blocks, false)),
        [BlockStart(|blocks|, head), BlockDeltaFrame(|blocks|, delta)])
      == Some(Reading(id, model, blocks + [Block(head, delta.text)], true))
  {
    var more := blocks + [Block(head, "")];
    var f := BlockDeltaFrame(|blocks|, delta);
    assert Extended(more, |blocks|, delta.text) == blocks + [Block(head, "" + delta.text)];
    assert "" + delta.text == delta.text;
    assert [BlockStart(|blocks|, head), f][1..] == [f];
    assert Read(strict, Some(Reading(id, model, more, true)), [f]) ==
      Some(Reading(id, model, blocks + [Block(head, delta.text)], true));
  }

  /** Adding a block at the end keeps the tool table right. */
  lemma AddedKeeps(b: Blocks, d: Draft, owner: Owner, head: BlockHead, text: string, b': Blocks)
    requires Linked(b, d) && Matches(owner, head) && (owner.ByTool? ==> owner !in d.owners)
    requires b'.next == b.next + 1 && b'.draws == b.draws
    requires b'.tools == if owner.ByTool? then b.tools[owner.tool := b.next] else b.tools
    requires b'.open == match owner case ByText => InText case ByThinking => InThinking case ByTool(_) => InTool
    ensures Linked(b', Added(d, owner, head, text))
  {
    var d' := Added(d, owner, head, text);
    assert d'.owners[|d.owners|] == owner;
    forall i ensures i in b'.tools <==> ByTool(i) in d'.owners {
      if ByTool(i) in d.owners {
        assert d'.owners[b.tools[i]] == ByTool(i);
      }
    }
  }

  lemma ProseReads(strict: bool, id: string, model: string, b: Blocks, d: Draft, kind: Kind, owner: Owner,
      head: BlockHead, delta: BlockDelta)
    requires Linked(b, d)
    requires (kind, owner, head) in {(InText, ByText, TextHead), (InThinking, ByThinking, ThinkingHead)}
    requires Fits(head, delta)
    ensures
      var d' := AbsorbProse(d, owner, head, delta.text);
      Linked(EmitProse(b, kind, head, delta).0, d') &&
      Read(strict, Some(View(id, model, b, d)), EmitProse(b, kind, head, delta).1)
      == Some(View(id, model, EmitProse(b, kind, head, delta).0, d'))
  {
    if b.open == kind {
      assert Matches(owner, d.blocks[|d.blocks| - 1].head);
    } else {
      AddedKeeps(b, d, owner, head, delta.text, EmitProse(b, kind, head, delta).0);
      StopReads(strict, id, model, b, d);
      OpenReads(strict, id, model, d.blocks, head, delta);
      ReadAppend(strict, Some(View(id, model, b, d)), StopOpen(b),
        [BlockStart(b.next, head), BlockDeltaFrame(b.next, delta)]);
    }
  }

  lemma NewCallReads(strict: bool, ids: IdSource, id: string, model: string, b: Blocks, d: Draft, u: Unit)
    requires Linked(b, d) && u.Call? && u.tool !in b.tools
    ensures Linked(Emit(ids, b, u).0, Absorb(ids, d, u))
    ensures
      Read(strict, Some(View(id, model, b, d)), Emit(ids, b, u).1)
      == Some(View(id, model, Emit(ids, b, u).0, Absorb(ids, d, u)))
  {
    var head := ToolHead(CallId(ids, b.draws, u.id), u.name);
    var tail := if u.arguments == "" then [] else [BlockDeltaFrame(b.next, JsonDelta(u.arguments))];
    AddedKeeps(b, d, ByTool(u.tool), head, u.arguments, Blocks(b.next + 1, InTool, b.tools[u.tool := b.next], b.draws));
    StopReads(strict, id, model, b, d);
    OpenReads(strict, id, model, d.blocks, head, JsonDelta(u.arguments));
    ReadAppend(strict, Some(View(id, model, b, d)), StopOpen(b), [BlockStart(b.next, head)] + tail);
    assert Emit(ids, b, u).1 == StopOpen(b) + ([BlockStart(b.next, head)] + tail);
    assert u.arguments == "" ==> [BlockStart(b.next, head)] + tail == [BlockStart(b.next, head)];
  }

  lemma MoreCallReads(strict: bool, ids: IdSource, id: string, model: string, b: Blocks, d: Draft, u: Unit)
    requires Linked(b, d) && u.Call? && u.tool in b.tools
    ensures Linked(Emit(ids, b, u).0, Absorb(ids, d, u))
    ensures
      Read(strict, Some(View(id, model, b, d)), Emit(ids, b, u).1)
      == if strict && GoesBack(d, u) then None else Some(View(id, model, Emit(ids, b, u).0, Absorb(ids, d, u)))
  {
    var k := b.tools[u.tool];
    ToolBlockIs(b, d, u.tool);
    assert Matches(d.owners[k], d.blocks[k].head);
    if u.arguments == "" {
      assert d.blocks[k].text + "" == d.blocks[k].text;
      assert Extended(d.blocks, k, "") == d.blocks;
    }
  }

  lemma EmitReads(strict: bool, ids: IdSource, id: string, model: string, b: Blocks, d: Draft, u: Unit)
    requires Linked(b, d)
    ensures Linked(Emit(ids, b, u).0, Absorb(ids, d, u))
    ensures
      Read(strict, Some(View(id, model, b, d)), Emit(ids, b, u).1)
      == if strict && GoesBack(d, u) then None else Some(View(id, model, Emit(ids, b, u).0, Absorb(ids, d, u)))
  {
    match u
    case Say(text) => ProseReads(strict, id, model, b, d, InText, ByText, TextHead, TextDelta(text));
    case Think(text) => ProseReads(strict, id, model, b, d, InThinking, ByThinking, ThinkingHead, ThinkingDelta(text));
    case Call(tool, _, _, _) =>
      if tool in b.tools {
        MoreCallReads(strict, ids, id, model, b, d, u);
      } else {
        NewCallReads(strict, ids, id, model, b, d, u);
      }
  }

  // ----- Which fragments go back -----

  ghost predicate Calls(us: seq<Unit>, tool: int) {
    exists q :: 0 <= q < |us| && us[q].Call? && us[q].tool == tool
  }

  /** The p-th unit is a further fragment of a tool call that already started. */
  ghost predicate Repeats(us: seq<Unit>, p: nat)
    requires p < |us|
  {
    us[p].Call? && Calls(us[..p], us[p].tool)
  }

  /**
   * The p-th unit carries arguments for a tool whose block is no longer the
   * newest: something else started in between.
   */
  ghost predicate GoesBackAt(us: seq<Unit>, p: nat)
    requires p < |us|
  {
    us[p].Call? && us[p].arguments != "" &&
    exists q, r :: 0 <= q < r < p && us[q].Call? && us[q].tool == us[p].tool && !Repeats(us, r)
  }

  /** No tool index is revisited with arguments after another block opened. */
  ghost predicate StaysPut(us: seq<Unit>) {
    forall p :: 0 <= p < |us| ==> !GoesBackAt(us, p)
  }

  /** Every unit after a call of this tool repeats some call: no block was opened since. */
  ghost predicate Settled(us: seq<Unit>, tool: int) {
    forall q, r :: 0 <= q < r < |us| && us[q].Call? && us[q].tool == tool ==> Repeats(us, r)
  }

  lemma CallsSnoc(front: seq<Unit>, u: Unit, tool: int)
    ensures Calls(front + [u], tool) <==> Calls(front, tool) || (u.Call? && u.tool == tool)
  {
    var us := front + [u];
    if u.Call? && u.tool == tool { assert us[|front|].tool == tool; }
    if Calls(front, tool) {
      var q :| 0 <= q < |front| && front[q].Call? && front[q].tool == tool;
      assert us[q] == front[q];
    }
  }

  lemma SettledSnoc(front: seq<Unit>, u: Unit, tool: int)
    ensures Settled(front + [u], tool) <==>
            Settled(front, tool) && (Calls(front, tool) ==> u.Call? && Calls(front, u.tool))
  {
    var us, n := front + [u], |front|;
    assert us[..n] == front;
    assert Repeats(us, n) <==> u.Call? && Calls(front, u.tool);
    forall r | 0 <= r < n ensures Repeats(us, r) <==> Repeats(front, r) {
      assert us[..r] == front[..r];
    }
    if Settled(us, tool) {
      forall q, r | 0 <= q < r < n && front[q].Call? && front[q].tool == tool ensures Repeats(front, r) {
        assert us[q] == front[q] && Repeats(us, r);
      }
      if Calls(front, tool) {
        var q :| 0 <= q < n && front[q].Call? && front[q].tool == tool;
        assert us[q] == front[q] && Repeats(us, n);
      }
    }
    if Settled(front, tool) && (Calls(front, tool) ==> u.Call? && Calls(front, u.tool)) {
      forall q, r | 0 <= q < r < |us| && us[q].Call? && us[q].tool == tool ensures Repeats(us, r) {
        assert us[q] == front[q];
      }
    }
  }

  lemma {:induction false} OwnersAre(ids: IdSource, us: seq<Unit>, tool: int)
    ensures ByTool(tool) in DraftOf(ids, us).owners <==> Calls(us, tool)
    ensures Newest(DraftOf(ids, us), ByTool(tool)) <==> Calls(us, tool) && Settled(us, tool)
  {
    if us != [] {
      var n := |us| - 1;
      var front, u := us[..n], us[n];
      assert us == front + [u];
      OwnersAre(ids, front, tool);
      if u.Call? { OwnersAre(ids, front, u.tool); }
      CallsSnoc(front, u, tool);
      SettledSnoc(front, u, tool);
      AbsorbOwners(ids, DraftOf(ids, front), u, tool);
    }
  }

  lemma AbsorbOwners(ids: IdSource, d: Draft, u: Unit, tool: int)
    requires |d.blocks| == |d.owners|
    ensures ByTool(tool) in Absorb(ids, d, u).owners <==> ByTool(tool) in d.owners || (u.Call? && u.tool == tool)
    ensures Newest(Absorb(ids, d, u), ByTool(tool)) <==>
            if u.Call? && ByTool(u.tool) !in d.owners then u.tool == tool
            else u.Call? && Newest(d, ByTool(tool))
  {
    var d' := Absorb(ids, d, u);
    if d'.owners != d.owners {
      assert d'.owners == d.owners + [d'.owners[|d.owners|]];
    }
  }

  lemma GoesBackIsGoesBackAt(ids: IdSource, us: seq<Unit>, p: nat)
    requires p < |us|
    ensures GoesBack(DraftOf(ids, us[..p]), us[p]) <==> GoesBackAt(us, p)
  {
    if us[p].Call? {
      var before := us[..p];
      OwnersAre(ids, before, us[p].tool);
      assert forall r :: 0 <= r < p ==> before[..r] == us[..r];
      assert forall r :: 0 <= r < p ==> (Repeats(before, r) <==> Repeats(us, r));
      if GoesBackAt(us, p) {
        var q, r :| 0 <= q < r < p && us[q].Call? && us[q].tool == us[p].tool && !Repeats(us, r);
        assert before[q] == us[q] && !Repeats(before, r);
      }
    }
  }

  lemma StaysPutSnoc(ids: IdSource, front: seq<Unit>, u: Unit)
    ensures StaysPut(front + [u]) <==> StaysPut(front) && !GoesBack(DraftOf(ids, front), u)
  {
    var us := front + [u];
    assert us[..|front|] == front;
    GoesBackIsGoesBackAt(ids, us, |front|);
    forall p | 0 <= p < |front| ensures GoesBackAt(us, p) <==> GoesBackAt(front, p) {
      assert us[..p] == front[..p];
      GoesBackIsGoesBackAt(ids, us, p);
      GoesBackIsGoesBackAt(ids, front, p);
    }
  }

  // ----- Runs of units -----

  /** What a reader of the first frames of these units has read; None when it has given up. */
  ghost predicate ReadsUnits(strict: bool, ids: IdSource, id: string, model: string, us: seq<Unit>, b: Blocks,
      fs: seq<AnthropicFrame>) {
    && Linked(b, DraftOf(ids, us))
    && Read(strict, Some(Reading(id, model, [], false)), fs)
       == if strict && !StaysPut(us) then None else Some(View(id, model, b, DraftOf(ids, us)))
  }

  lemma NextUnitReads(strict: bool, ids: IdSource, id: string, model: string, front: seq<Unit>, u: Unit, b: Blocks,
      fs: seq<AnthropicFrame>)
    requires ReadsUnits(strict, ids, id, model, front, b, fs)
    ensures ReadsUnits(strict, ids, id, model, front + [u], Emit(ids, b, u).0, fs + Emit(ids, b, u).1)
  {
    assert (front + [u])[..|front|] == front;
    EmitReads(strict, ids, id, model, b, DraftOf(ids, front), u);
    ReadAppend(strict, Some(Reading(id, model, [], false)), fs, Emit(ids, b, u).1);
    StaysPutSnoc(ids, front, u);
  }

  lemma {:induction false} UnitsRead(strict: bool, ids: IdSource, id: string, model: string, us: seq<Unit>)
    ensures Linked(EmitAll(ids, NO_BLOCKS, us).0, DraftOf(ids, us))
    ensures
      Read(strict, Some(Reading(id, model, [], false)), EmitAll(ids, NO_BLOCKS, us).1)
      == if strict && !StaysPut(us) then None
         else Some(View(id, model, EmitAll(ids, NO_BLOCKS, us).0, DraftOf(ids, us)))
  {
    if us != [] {
      var front, u := us[..|us| - 1], us[|us| - 1];
      assert us == front + [u];
      UnitsRead(strict, ids, id, model, front);
      var before := EmitAll(ids, NO_BLOCKS, front);
      NextUnitReads(strict, ids, id, model, front, u, before.0, before.1);
      EmitAllSnoc(ids, NO_BLOCKS, front, u);
    }
  }

  // ----- Whole streams -----

  /** The chunks that count: the decodable ones, up to and including the first that finishes. */
  function Live(input: seq<Option<ChatChunk>>): seq<ChatChunk> {
    if input == [] then []
    else
      var before, last := Live(input[..|input| - 1]), input[|input| - 1];
      if Stopped(before) || last.None? then before else before + [last.value]
  }

  predicate Stopped(chunks: seq<ChatChunk>) {
    chunks != [] && Finishes(chunks[|chunks| - 1])
  }

  function Units(chunks: seq<ChatChunk>): seq<Unit> {
    if chunks == [] then [] else Units(chunks[..|chunks| - 1]) + UnitsOf(chunks[|chunks| - 1])
  }

  /** The name in message_start: the translator's own, or the first chunk's when it has none. */
  function NameIn(model: string, chunks: seq<ChatChunk>): string
    requires chunks != []
  {
    if model == "" then chunks[0].model else model
  }

  function StopIn(chunks: seq<ChatChunk>): string {
    if Stopped(chunks) then ChatFinishToAnthropic(chunks[|chunks| - 1].choices[0].finish.value) else "end_turn"
  }

  function OutputIn(chunks: seq<ChatChunk>): Option<int> {
    if Stopped(chunks) then CompletionOf(chunks[|chunks| - 1]) else None
  }

  function Tail(b: Blocks, chunks: seq<ChatChunk>): seq<AnthropicFrame> {
    if Stopped(chunks) then Closing(b, StopIn(chunks), OutputIn(chunks)) else []
  }

  ghost predicate RanTo(ids: IdSource, model: string, id: string, chunks: seq<ChatChunk>, s: State,
      fs: seq<AnthropicFrame>) {
    var (b, body) := EmitAll(ids, NO_BLOCKS, Units(chunks));
    && s.finished == Stopped(chunks) && s.started == (chunks != []) && s.id == id
    && (chunks == [] ==> s == Start(model, id) && fs == [])
    && (chunks != [] ==>
          && fs == [MessageStart(id, NameIn(model, chunks))] + body + Tail(b, chunks)
          && s.blocks == if Stopped(chunks) then b.(open := Closed) else b)
  }

  lemma {:induction false} RunIs(ids: IdSource, model: string, id: string, input: seq<Option<ChatChunk>>)
    ensures RanTo(ids, model, id, Live(input), Run(ids, Start(model, id), input).0, Run(ids, Start(model, id), input).1)
  {
    if input != [] {
      var front, last := input[..|input| - 1], input[|input| - 1];
      var (s, fs) := Run(ids, Start(model, id), front);
      RunIs(ids, model, id, front);
      if !s.finished && last.Some? {
        StepIs(ids, model, id, Live(front), s, fs, last.value);
      }
    }
  }

  /** Two runs of units in a row, the first from the very beginning. */
  lemma EmitTwice(ids: IdSource, us: seq<Unit>, vs: seq<Unit>)
    ensures
      var (b1, body1) := EmitAll(ids, NO_BLOCKS, us);
      var (b2, body2) := EmitAll(ids, b1, vs);
      EmitAll(ids, NO_BLOCKS, us + vs).0 == b2 && EmitAll(ids, NO_BLOCKS, us + vs).1 == body1 + body2
  {
    EmitAllAppend(ids, NO_BLOCKS, us, vs);
  }

  lemma StepIs(ids: IdSource, model: string, id: string, chunks: seq<ChatChunk>, s: State, fs: seq<AnthropicFrame>,
      chunk: ChatChunk)
    requires RanTo(ids, model, id, chunks, s, fs) && !s.finished
    ensures RanTo(ids, model, id, chunks + [chunk], Feed(ids, s, Some(chunk)).0, fs + Feed(ids, s, Some(chunk)).1)
  {
    var all := chunks + [chunk];
    assert all[..|all| - 1] == chunks && all[|all| - 1] == chunk;
    var us, vs := Units(chunks), UnitsOf(chunk);
    assert Units(all) == us + vs;
    var body1, body2 := EmitAll(ids, NO_BLOCKS, us).1, EmitAll(ids, s.blocks, vs).1;
    var b2 := EmitAll(ids, s.blocks, vs).0;
    assert s.blocks == EmitAll(ids, NO_BLOCKS, us).0;
    EmitTwice(ids, us, vs);
    FeedIs(ids, s, chunk, b2, body2);
    StepJoins(model, id, chunks, fs, chunk, b2, body1, body2);
  }

  /** The frames so far and those of one more chunk, put together. */
  lemma StepJoins(model: string, id: string, chunks: seq<ChatChunk>, fs: seq<AnthropicFrame>, chunk: ChatChunk,
      b: Blocks,
                  body1: seq<AnthropicFrame>, body2: seq<AnthropicFrame>)
    requires if chunks == [] then fs == [] && body1 == [] else fs == [MessageStart(id, NameIn(model, chunks))] + body1
    ensures
      var all := chunks + [chunk];
      fs + ((if chunks == [] then [MessageStart(id, NameIn(model, all))] else []) + (body2 + Tail(b, [chunk])))
      == [MessageStart(id, NameIn(model, all))] + (body1 + body2) + Tail(b, all)
  {
    var all := chunks + [chunk];
    TailIs(b, chunks, chunk);
    Joined(fs, [MessageStart(id, NameIn(model, all))], body1, body2, Tail(b, all), chunks == []);
  }

  lemma Joined(fs: seq<AnthropicFrame>, head: seq<AnthropicFrame>, body1: seq<AnthropicFrame>,
      body2: seq<AnthropicFrame>, tail: seq<AnthropicFrame>, first: bool)
    requires if first then fs == [] && body1 == [] else fs == head + body1
    ensures fs + ((if first then head else []) + (body2 + tail)) == head + (body1 + body2) + tail
  {
    if first {
      assert body1 + body2 == body2;
    }
  }

  lemma TailIs(b: Blocks, chunks: seq<ChatChunk>, chunk: ChatChunk)
    ensures Tail(b, chunks + [chunk]) == Tail(b, [chunk])
  {
    assert (chunks + [chunk])[|chunks + [chunk]| - 1] == chunk;
  }

  lemma FeedIs(ids: IdSource, s: State, chunk: ChatChunk, b: Blocks, body: seq<AnthropicFrame>)
    requires !s.finished && EmitAll(ids, s.blocks, UnitsOf(chunk)) == (b, body)
    ensures
      var (s', fs) := Feed(ids, s, Some(chunk));
      && s'.finished == Finishes(chunk) && s'.started && s'.id == s.id &&
           s'.blocks == (if s'.finished then b.(open := Closed) else b)
      && fs == (if s.started then [] else [MessageStart(s.id, if s.model == "" then chunk.model else s.model)]) +
           (body + Tail(b, [chunk]))
  {
    var model := if s.model == "" then chunk.model else s.model;
    var head := if s.started then [] else [MessageStart(s.id, model)];
    Assoc(head, body, Tail(b, [chunk]));
    assert head + body + [] == head + body;
  }

  /** What a reader should end up with: the message the live chunks describe. */
  function MessageOf(ids: IdSource, model: string, id: string, chunks: seq<ChatChunk>): Message
    requires chunks != []
  {
    Message(id, NameIn(model, chunks), DraftOf(ids, Units(chunks)).blocks, StopIn(chunks), OutputIn(chunks))
  }

  /**
   * The grammar and the meaning of every finished stream, for every input. The
   * reader accepts it exactly when some chunk decoded, and then reads the
   * message the chunks describe; a reader that wants every tool fragment in the
   * open block accepts it exactly when, besides, no fragment goes back to an
   * earlier tool block.
   */
  lemma StreamReads(strict: bool, ids: IdSource, model: string, id: string, input: seq<Option<ChatChunk>>)
    ensures
      var chunks := Live(input);
      Read(strict, Some(Waiting), Stream(ids, model, id, input))
      == if chunks == [] || (strict && !StaysPut(Units(chunks))) then None
         else Some(Complete(MessageOf(ids, model, id, chunks)))
  {
    var chunks := Live(input);
    if chunks == [] {
      RunIs(ids, model, id, input);
    } else {
      var name, us, stop, output := NameIn(model, chunks), Units(chunks), StopIn(chunks), OutputIn(chunks);
      var r := EmitAll(ids, NO_BLOCKS, us);
      StreamIs(ids, model, id, input);
      OpeningReads(strict, id, name, r.1 + Closing(r.0, stop, output));
      BodyReads(strict, ids, id, name, us, stop, output);
    }
  }

  /** A stream with a decodable chunk: the start, the frames of its units, the close. */
  lemma StreamIs(ids: IdSource, model: string, id: string, input: seq<Option<ChatChunk>>)
    requires Live(input) != []
    ensures
      var chunks := Live(input);
      var r := EmitAll(ids, NO_BLOCKS, Units(chunks));
      Stream(ids, model, id, input) == [MessageStart(id, NameIn(model, chunks))] +
        (r.1 + Closing(r.0, StopIn(chunks), OutputIn(chunks)))
  {
    var chunks := Live(input);
    var (s, fs) := Run(ids, Start(model, id), input);
    RunIs(ids, model, id, input);
    var r := EmitAll(ids, NO_BLOCKS, Units(chunks));
    var head, close := [MessageStart(id, NameIn(model, chunks))], Closing(r.0, StopIn(chunks), OutputIn(chunks));
    Assoc(head, r.1, close);
    assert Tail(r.0, chunks) + Finish(s).1 == close;
    Assoc(head + r.1, Tail(r.0, chunks), Finish(s).1);
  }

  lemma OpeningReads(strict: bool, id: string, name: string, rest: seq<AnthropicFrame>)
    ensures
      Read(strict, Some(Waiting), [MessageStart(id, name)] + rest) ==
        Read(strict, Some(Reading(id, name, [], false)), rest)
  {
    ReadAppend(strict, Some(Waiting), [MessageStart(id, name)], rest);
    assert Read(strict, Some(Waiting), [MessageStart(id, name)]) == Some(Reading(id, name, [], false));
  }

  lemma BodyReads(strict: bool, ids: IdSource, id: string, model: string, us: seq<Unit>, stop: string,
      output: Option<int>)
    ensures
      var (b, body) := EmitAll(ids, NO_BLOCKS, us);
      Read(strict, Some(Reading(id, model, [], false)), body + Closing(b, stop, output))
      == if strict && !StaysPut(us) then None
         else Some(Complete(Message(id, model, DraftOf(ids, us).blocks, stop, output)))
  {
    var (b, body) := EmitAll(ids, NO_BLOCKS, us);
    var start, d := Some(Reading(id, model, [], false)), DraftOf(ids, us);
    UnitsRead(strict, ids, id, model, us);
    ReadAppend(strict, start, body, Closing(b, stop, output));
    if !(strict && !StaysPut(us)) {
      CloseReads(strict, id, model, b, d, stop, output);
    }
  }

  lemma CloseReads(strict: bool, id: string, model: string, b: Blocks, d: Draft, stop: string, output: Option<int>)
    requires Linked(b, d)
    ensures Read(strict, Some(View(id, model, b, d)), Closing(b, stop, output))
         == Some(Complete(Message(id, model, d.blocks, stop, output)))
  {
    StopReads(strict, id, model, b, d);
    var tail := [MessageDelta(stop, output), MessageStop];
    ReadAppend(strict, Some(View(id, model, b, d)), StopOpen(b), tail);
    assert tail[1..] == [MessageStop];
    var m := Message(id, model, d.blocks, stop, output);
    assert ReadFrame(strict, Ended(m), MessageStop) == Some(Complete(m));
    assert Read(strict, Some(Ended(m)), [MessageStop]) == Some(Complete(m));
  }

  // ----- Conservation -----

  function TextOf(blocks: seq<Block>): string {
    if blocks == [] then []
    else
      var last := blocks[|blocks| - 1];
      TextOf(blocks[..|blocks| - 1]) + if last.head.TextHead? then last.text else ""
  }

  function ThinkingOf(blocks: seq<Block>): string {
    if blocks == [] then []
    else
      var last := blocks[|blocks| - 1];
      ThinkingOf(blocks[..|blocks| - 1]) + if last.head.ThinkingHead? then last.text else ""
  }

  function Said(us: seq<Unit>): string {
    if us == [] then [] else Said(us[..|us| - 1]) + (if us[|us| - 1].Say? then us[|us| - 1].text else "")
  }

  function Thought(us: seq<Unit>): string {
    if us == [] then [] else Thought(us[..|us| - 1]) + (if us[|us| - 1].Think? then us[|us| - 1].text else "")
  }

  function ArgumentsOf(us: seq<Unit>, tool: int): string {
    if us == [] then []
    else
      ArgumentsOf(us[..|us| - 1], tool) +
      (if us[|us| - 1].Call? && us[|us| - 1].tool == tool then us[|us| - 1].arguments else "")
  }

  /** The fragment that introduced the tool: the reader learns the id and the name from it. */
  function FirstCall(us: seq<Unit>, tool: int): Option<Unit> {
    if us == [] then None
    else
      var before, u := FirstCall(us[..|us| - 1], tool), us[|us| - 1];
      if before.None? && u.Call? && u.tool == tool then Some(u) else before
  }

  ghost predicate HeadFrom(head: BlockHead, first: Option<Unit>) {
    first.Some? && first.value.Call? && head.ToolHead? && head.name == first.value.name &&
    (first.value.id != "" ==> head.id == first.value.id)
  }

  /** Texts of blocks after one of them grew at the end of the list, or a tool block grew anywhere. */
  lemma {:induction false} GrownText(blocks: seq<Block>, i: nat, more: string)
    requires i < |blocks|
    requires blocks[i].head.ToolHead? || i == |blocks| - 1
    ensures TextOf(Extended(blocks, i, more)) == TextOf(blocks) + if blocks[i].head.TextHead? then more else ""
    ensures
      ThinkingOf(Extended(blocks, i, more)) == ThinkingOf(blocks) + if blocks[i].head.ThinkingHead? then more else ""
  {
    var front, last := blocks[..|blocks| - 1], blocks[|blocks| - 1];
    assert blocks == front + [last];
    AddedText(front, last);
    if i == |front| {
      var grown := Extended(blocks, i, more)[i];
      assert Extended(blocks, i, more) == front + [grown];
      GrownLast(front, last, grown, more);
    } else {
      assert Extended(blocks, i, more) == Extended(front, i, more) + [last];
      AddedText(Extended(front, i, more), last);
      GrownText(front, i, more);
    }
  }

  lemma GrownLast(front: seq<Block>, last: Block, grown: Block, more: string)
    requires grown.head == last.head && grown.text == last.text + more
    ensures TextOf(front + [grown]) == TextOf(front + [last]) + if last.head.TextHead? then more else ""
    ensures ThinkingOf(front + [grown]) == ThinkingOf(front + [last]) + if last.head.ThinkingHead? then more else ""
  {
    AddedText(front, last);
    AddedText(front, grown);
    Assoc(TextOf(front), last.text, more);
    Assoc(ThinkingOf(front), last.text, more);
  }

  lemma AddedText(blocks: seq<Block>, block: Block)
    ensures TextOf(blocks + [block]) == TextOf(blocks) + if block.head.TextHead? then block.text else ""
    ensures ThinkingOf(blocks + [block]) == ThinkingOf(blocks) + if block.head.ThinkingHead? then block.text else ""
  {
    assert (blocks + [block])[..|blocks|] == blocks;
  }

  /**
   * Every tool block of the draft carries its tool's first id and name and all
   * its fragments, and a tool without a block was never called.
   */
  ghost predicate HoldsCalls(d: Draft, us: seq<Unit>)
    requires |d.blocks| == |d.owners|
  {
    && (forall k :: 0 <= k < |d.owners| && d.owners[k].ByTool? ==>
          d.blocks[k].text == ArgumentsOf(us, d.owners[k].tool) &&
            HeadFrom(d.blocks[k].head, FirstCall(us, d.owners[k].tool)))
    && (forall i :: ByTool(i) !in d.owners ==> ArgumentsOf(us, i) == "" && FirstCall(us, i).None?)
  }

  /**
   * Whatever the order of chunks: the text blocks concatenate to the content,
   * the thinking blocks to the reasoning, and each tool index has exactly one
   * block, holding all its argument fragments in order.
   */
  lemma {:induction false} DraftConserves(ids: IdSource, us: seq<Unit>)
    ensures ValidDraft(DraftOf(ids, us))
    ensures TextOf(DraftOf(ids, us).blocks) == Said(us)
    ensures ThinkingOf(DraftOf(ids, us).blocks) == Thought(us)
    ensures HoldsCalls(DraftOf(ids, us), us)
  {
    if us != [] {
      var front, u := us[..|us| - 1], us[|us| - 1];
      var d := DraftOf(ids, front);
      assert us == front + [u];
      DraftConserves(ids, front);
      UnitsRead(false, ids, "", "", us);
      UnitConserves(ids, d, u);
      AbsorbCalls(ids, d, front, u);
    }
  }

  lemma UnitConserves(ids: IdSource, d: Draft, u: Unit)
    requires ValidDraft(d)
    ensures TextOf(Absorb(ids, d, u).blocks) == TextOf(d.blocks) + if u.Say? then u.text else ""
    ensures ThinkingOf(Absorb(ids, d, u).blocks) == ThinkingOf(d.blocks) + if u.Think? then u.text else ""
  {
    var d' := Absorb(ids, d, u);
    if d'.owners == d.owners {
      var i := if u.Call? then IndexOf(d.owners, ByTool(u.tool)) else |d.blocks| - 1;
      assert Matches(d.owners[i], d.blocks[i].head);
      GrownText(d.blocks, i, if u.Call? then u.arguments else u.text);
    } else {
      assert d'.blocks == d.blocks + [d'.blocks[|d.blocks|]];
      AddedText(d.blocks, d'.blocks[|d.blocks|]);
    }
  }

  lemma CallSnoc(front: seq<Unit>, u: Unit, tool: int)
    ensures ArgumentsOf(front + [u], tool)
         == ArgumentsOf(front, tool) + if u.Call? && u.tool == tool then u.arguments else ""
    ensures FirstCall(front + [u], tool)
         == if FirstCall(front, tool).None? && u.Call? && u.tool == tool then Some(u) else FirstCall(front, tool)
  {
    assert (front + [u])[..|front|] == front;
  }

  lemma AbsorbCalls(ids: IdSource, d: Draft, front: seq<Unit>, u: Unit)
    requires ValidDraft(d) && HoldsCalls(d, front)
    ensures HoldsCalls(Absorb(ids, d, u), front + [u])
  {
    var d' := Absorb(ids, d, u);
    forall i | ByTool(i) !in d'.owners ensures ArgumentsOf(front + [u], i) == "" && FirstCall(front + [u], i).None? {
      AbsorbOwners(ids, d, u, i);
      CallSnoc(front, u, i);
    }
    forall k | 0 <= k < |d'.owners| && d'.owners[k].ByTool?
      ensures d'.blocks[k].text == ArgumentsOf(front + [u], d'.owners[k].tool)
      ensures HeadFrom(d'.blocks[k].head, FirstCall(front + [u], d'.owners[k].tool))
    {
      AbsorbedBlock(ids, d, front, u, k);
    }
  }

  lemma AbsorbedBlock(ids: IdSource, d: Draft, front: seq<Unit>, u: Unit, k: nat)
    requires ValidDraft(d) && HoldsCalls(d, front)
    requires k < |Absorb(ids, d, u).owners| && Absorb(ids, d, u).owners[k].ByTool?
    ensures Absorb(ids, d, u).blocks[k].text == ArgumentsOf(front + [u], Absorb(ids, d, u).owners[k].tool)
    ensures HeadFrom(Absorb(ids, d, u).blocks[k].head, FirstCall(front + [u], Absorb(ids, d, u).owners[k].tool))
  {
    var tool := Absorb(ids, d, u).owners[k].tool;
    CallSnoc(front, u, tool);
    if u.Call? && ByTool(u.tool) in d.owners {
      var i := IndexOf(d.owners, ByTool(u.tool));
      assert d.owners[i] == ByTool(u.tool);
      assert k == i <==> tool == u.tool;
    }
  }

  /**
   * Conservation for every stream, whatever the interleaving: reading it back
   * gives the content, the reasoning and, under the block the translator
   * mapped a tool index to, that tool's id, name and arguments; the map is
   * injective and has an entry for each tool called and no other.
   */
  lemma StreamConserves(ids: IdSource, model: string, id: string, input: seq<Option<ChatChunk>>)
    requires Live(input) != []
    ensures
      var us := Units(Live(input));
      var blocks := MessageOf(ids, model, id, Live(input)).blocks;
      var tools := Run(ids, Start(model, id), input).0.blocks.tools;
      && TextOf(blocks) == Said(us) && ThinkingOf(blocks) == Thought(us)
      && (forall i :: i in tools <==> Calls(us, i))
      && (forall i, j :: i in tools && j in tools && i != j ==> tools[i] != tools[j])
      && (forall i :: i in tools ==> tools[i] < |blocks| && blocks[tools[i]].text == ArgumentsOf(us, i))
      && (forall i :: i in tools ==> HeadFrom(blocks[tools[i]].head, FirstCall(us, i)))
  {
    var us := Units(Live(input));
    var d, b := DraftOf(ids, us), EmitAll(ids, NO_BLOCKS, us).0;
    RunIs(ids, model, id, input);
    assert Run(ids, Start(model, id), input).0.blocks.tools == b.tools;
    UnitsRead(false, ids, id, model, us);
    DraftConserves(ids, us);
    forall i ensures i in b.tools <==> Calls(us, i) {
      OwnersAre(ids, us, i);
    }
    forall i | i in b.tools
      ensures d.blocks[b.tools[i]].text == ArgumentsOf(us, i) && HeadFrom(d.blocks[b.tools[i]].head, FirstCall(us, i))
    {
      assert d.owners[b.tools[i]] == ByTool(i);
    }
  }

  // ----- Drawn ids -----

  /** The tools whose first fragment has no id, in order of introduction. */
  function Idless(us: seq<Unit>): seq<int> {
    if us == [] then []
    else
      var front, u := us[..|us| - 1], us[|us| - 1];
      Idless(front) + if u.Call? && u.id == "" && FirstCall(front, u.tool).None? then [u.tool] else []
  }

  ghost predicate LacksId(us: seq<Unit>, tool: int) {
    FirstCall(us, tool).Some? && FirstCall(us, tool).value.Call? && FirstCall(us, tool).value.id == ""
  }

  lemma IdlessSnoc(front: seq<Unit>, u: Unit)
    ensures Idless(front + [u]) ==
      Idless(front) + if u.Call? && u.id == "" && FirstCall(front, u.tool).None? then [u.tool] else []
  {
    assert (front + [u])[..|front|] == front;
  }

  lemma {:induction false} IdlessAre(us: seq<Unit>, tool: int)
    ensures tool in Idless(us) <==> LacksId(us, tool)
    ensures FirstCall(us, tool).Some? ==> FirstCall(us, tool).value.Call?
  {
    if us != [] {
      var front, u := us[..|us| - 1], us[|us| - 1];
      assert us == front + [u];
      IdlessAre(front, tool);
      IdlessSnoc(front, u);
      CallSnoc(front, u, tool);
    }
  }

  lemma {:induction false} IdlessDiffer(us: seq<Unit>)
    ensures forall m, n :: 0 <= m < n < |Idless(us)| ==> Idless(us)[m] != Idless(us)[n]
  {
    if us != [] {
      var front, u := us[..|us| - 1], us[|us| - 1];
      assert us == front + [u];
      IdlessDiffer(front);
      IdlessSnoc(front, u);
      if u.Call? { IdlessAre(front, u.tool); }
    }
  }

  /** The n-th tool without an id got the n-th drawn one. */
  ghost predicate HoldsDraws(ids: IdSource, d: Draft, idless: seq<int>)
    requires |d.blocks| == |d.owners|
  {
    && d.draws == |idless|
    && forall k, n :: 0 <= k < |d.owners| && 0 <= n < |idless| && d.owners[k] == ByTool(idless[n]) ==>
         DrawnHead(ids, d.blocks[k].head, n)
  }

  /** The tool has the n-th drawn id. */
  predicate DrawnHead(ids: IdSource, head: BlockHead, n: nat) {
    head.ToolHead? && head.id == "call_" + ids(n)
  }

  lemma AbsorbDraws(ids: IdSource, d: Draft, front: seq<Unit>, u: Unit)
    requires ValidDraft(d) && HoldsCalls(d, front) && HoldsDraws(ids, d, Idless(front))
    ensures HoldsDraws(ids, Absorb(ids, d, u), Idless(front + [u]))
  {
    var d', idless := Absorb(ids, d, u), Idless(front);
    IdlessSnoc(front, u);
    if u.Call? && ByTool(u.tool) !in d.owners {
      NewToolDraws(ids, d, front, u);
    } else {
      if u.Call? { CalledBefore(d, front, u.tool); }
      assert Idless(front + [u]) == idless + [] == idless;
      assert forall k :: 0 <= k < |d.owners| ==> d'.blocks[k].head == d.blocks[k].head && d'.owners[k] == d.owners[k];
    }
  }

  lemma CalledBefore(d: Draft, front: seq<Unit>, tool: int)
    requires ValidDraft(d) && HoldsCalls(d, front) && ByTool(tool) in d.owners
    ensures FirstCall(front, tool).Some?
  {
    assert d.owners[IndexOf(d.owners, ByTool(tool))] == ByTool(tool);
  }

  lemma NewToolDraws(ids: IdSource, d: Draft, front: seq<Unit>, u: Unit)
    requires ValidDraft(d) && HoldsCalls(d, front) && HoldsDraws(ids, d, Idless(front))
    requires u.Call? && ByTool(u.tool) !in d.owners
    ensures HoldsDraws(ids, Absorb(ids, d, u), Idless(front + [u]))
  {
    var d', idless, more := Absorb(ids, d, u), Idless(front), Idless(front + [u]);
    IdlessSnoc(front, u);
    IdlessAre(front, u.tool);
    forall k, n | 0 <= k < |d'.owners| && 0 <= n < |more| && d'.owners[k] == ByTool(more[n])
      ensures DrawnHead(ids, d'.blocks[k].head, n)
    {
      if k < |d.owners| {
        assert d'.owners[k] == d.owners[k] && more[n] != u.tool;
        assert more[n] == idless[n];
        assert d'.blocks[k] == d.blocks[k];
      } else {
        assert d'.owners[k] == ByTool(u.tool);
        assert n == d.draws;
      }
    }
  }

  lemma {:induction false} DraftDraws(ids: IdSource, us: seq<Unit>)
    ensures HoldsDraws(ids, DraftOf(ids, us), Idless(us))
  {
    if us != [] {
      var front, u := us[..|us| - 1], us[|us| - 1];
      assert us == front + [u];
      DraftDraws(ids, front);
      DraftConserves(ids, front);
      AbsorbDraws(ids, DraftOf(ids, front), front, u);
    }
  }

  /**
   * The ids of the tools introduced without one, in every stream: the n-th of
   * them, counted in order of introduction, has "call_" and the n-th id drawn;
   * no other tool draws one.
   */
  lemma StreamDraws(ids: IdSource, model: string, id: string, input: seq<Option<ChatChunk>>)
    requires Live(input) != []
    ensures
      var us := Units(Live(input));
      var blocks := MessageOf(ids, model, id, Live(input)).blocks;
      var b := Run(ids, Start(model, id), input).0.blocks;
      && b.draws == |Idless(us)|
      && (forall i :: i in Idless(us) <==> LacksId(us, i))
      && (forall m, n :: 0 <= m < n < |Idless(us)| ==> Idless(us)[m] != Idless(us)[n])
      && forall n :: 0 <= n < |Idless(us)| ==> DrawnBlock(ids, blocks, b.tools, Idless(us)[n], n)
  {
    var us := Units(Live(input));
    var d, b := DraftOf(ids, us), EmitAll(ids, NO_BLOCKS, us).0;
    RunIs(ids, model, id, input);
    assert Run(ids, Start(model, id), input).0.blocks.tools == b.tools;
    UnitsRead(false, ids, id, model, us);
    DraftConserves(ids, us);
    DraftDraws(ids, us);
    IdlessDiffer(us);
    forall i ensures i in Idless(us) <==> LacksId(us, i) {
      IdlessAre(us, i);
    }
    forall n | 0 <= n < |Idless(us)| ensures DrawnBlock(ids, d.blocks, b.tools, Idless(us)[n], n) {
      DrawnAt(ids, b, d, us, n);
    }
  }

  ghost predicate DrawnBlock(ids: IdSource, blocks: seq<Block>, tools: map<int, nat>, tool: int, n: nat) {
    tool in tools && tools[tool] < |blocks| && DrawnHead(ids, blocks[tools[tool]].head, n)
  }

  lemma DrawnAt(ids: IdSource, b: Blocks, d: Draft, us: seq<Unit>, n: nat)
    requires Linked(b, d) && HoldsCalls(d, us) && HoldsDraws(ids, d, Idless(us)) && n < |Idless(us)|
    ensures DrawnBlock(ids, d.blocks, b.tools, Idless(us)[n], n)
  {
    IdlessAre(us, Idless(us)[n]);
    assert ByTool(Idless(us)[n]) in d.owners;
  }
}
