/**
 * Anthropic to Chat to Anthropic. A well-formed Anthropic stream, fed through
 * both translators, comes back in a normal form.
 */
module StreamRoundTrip {
  import opened Basics
  import opened Wire
  import A = AnthropicToChat
  import AP = AnthropicToChatProofs
  import C = ChatToAnthropic
  import P = ChatToAnthropicProofs
  import U = ChatUnits

  // ----- Well-formed streams -----

  /** A content block with the fragments it is streamed in. */
  datatype Piece =
    | TextPiece(deltas: seq<string>)
    | ThinkingPiece(deltas: seq<string>)
    | ToolPiece(id: string, name: string, deltas: seq<string>)

  function HeadOf(p: Piece): BlockHead {
    match p
    case TextPiece(_) => TextHead
    case ThinkingPiece(_) => ThinkingHead
    case ToolPiece(id, name, _) => ToolHead(id, name)
  }

  function Fragment(p: Piece, text: string): BlockDelta {
    match p
    case TextPiece(_) => TextDelta(text)
    case ThinkingPiece(_) => ThinkingDelta(text)
    case ToolPiece(_, _, _) => JsonDelta(text)
  }

  function Deltas(i: int, p: Piece, deltas: seq<string>): seq<AnthropicFrame> {
    if deltas == [] then []
    else Deltas(i, p, deltas[..|deltas| - 1]) + [BlockDeltaFrame(i, Fragment(p, deltas[|deltas| - 1]))]
  }

  /** A block without its stop. */
  function OpenPiece(i: int, p: Piece): seq<AnthropicFrame> {
    [BlockStart(i, HeadOf(p))] + Deltas(i, p, p.deltas)
  }

  /** Sequential blocks, the last one not stopped. */
  function OpenPieces(ps: seq<Piece>): seq<AnthropicFrame> {
    if ps == [] then [] else Pieces(ps[..|ps| - 1]) + OpenPiece(|ps| - 1, ps[|ps| - 1])
  }

  /** Sequential blocks numbered from 0. */
  function Pieces(ps: seq<Piece>): seq<AnthropicFrame> {
    if ps == [] then [] else Pieces(ps[..|ps| - 1]) + OpenPiece(|ps| - 1, ps[|ps| - 1]) + [BlockStop(|ps| - 1)]
  }

  function Render(id: string, model: string, ps: seq<Piece>, stop: string, output: Option<int>): seq<AnthropicFrame> {
    [MessageStart(id, model)] + Pieces(ps) + [MessageDelta(stop, output), MessageStop]
  }

  // ----- The normal form -----

  function NonEmpty(deltas: seq<string>): seq<string> {
    if deltas == [] then []
    else NonEmpty(deltas[..|deltas| - 1]) + (if deltas[|deltas| - 1] == "" then [] else [deltas[|deltas| - 1]])
  }

  function AddText(ps: seq<Piece>, deltas: seq<string>): seq<Piece> {
    if deltas == [] then ps
    else if ps != [] && ps[|ps| - 1].TextPiece? then ps[..|ps| - 1] + [TextPiece(ps[|ps| - 1].deltas + deltas)]
    else ps + [TextPiece(deltas)]
  }

  /** Thinking and empty fragments dropped, text blocks that become adjacent merged. */
  function Normalize(ps: seq<Piece>): seq<Piece> {
    if ps == [] then []
    else
      var before, p := Normalize(ps[..|ps| - 1]), ps[|ps| - 1];
      match p
      case TextPiece(deltas) => AddText(before, NonEmpty(deltas))
      case ThinkingPiece(_) => before
      case ToolPiece(id, name, deltas) => before + [ToolPiece(id, name, NonEmpty(deltas))]
  }

  ghost predicate WellFormed(ps: seq<Piece>) {
    forall k :: 0 <= k < |ps| && ps[k].ToolPiece? ==> ps[k].id != ""
  }

  // ----- The events of a stream -----

  const NO_PAYLOAD := AnthropicPayload("", None, None, None, None, None, None)

  /** What a frame decodes to; `input` is the input token count reported at the start. */
  function Encode(f: AnthropicFrame, input: Option<int>): AnthropicPayload {
    match f
    case MessageStart(_, model) =>
      NO_PAYLOAD.(typ := "message_start", message := Some(MessageField(model, Some(input))))
    case BlockStart(i, head) =>
      var field := match head
        case TextHead => BlockField("text", "", "")
        case ThinkingHead => BlockField("thinking", "", "")
        case ToolHead(id, name) => BlockField("tool_use", id, name);
      NO_PAYLOAD.(typ := "content_block_start", index := Some(i), contentBlock := Some(field))
    case BlockDeltaFrame(i, delta) =>
      var field := match delta
        case TextDelta(text) => DeltaField("text_delta", text, "", None)
        case ThinkingDelta(_) => DeltaField("thinking_delta", "", "", None)
        case JsonDelta(text) => DeltaField("input_json_delta", "", text, None);
      NO_PAYLOAD.(typ := "content_block_delta", index := Some(i), delta := Some(field))
    case BlockStop(i) => NO_PAYLOAD.(typ := "content_block_stop", index := Some(i))
    case MessageDelta(stop, output) =>
      NO_PAYLOAD.(typ := "message_delta", delta := Some(DeltaField("", "", "", Some(stop))), usage := Some(output))
    case MessageStop => NO_PAYLOAD.(typ := "message_stop")
  }

  function EventOf(f: AnthropicFrame, input: Option<int>): AnthropicEvent {
    SseEvent(Encode(f, input).typ, "", Some(Encode(f, input)))
  }

  function Events(fs: seq<AnthropicFrame>, input: Option<int>): seq<AnthropicEvent> {
    seq(|fs|, k requires 0 <= k < |fs| => EventOf(fs[k], input))
  }

  /** What the first translator makes of a frame. */
  function ActionOf(f: AnthropicFrame, input: Option<int>): A.Action {
    match f
    case MessageStart(_, model) => A.Begin(Some(MessageField(model, Some(input))))
    case BlockStart(i, head) => if head.ToolHead? then A.OpenTool(i, head.id, head.name) else A.Nothing
    case BlockDeltaFrame(i, delta) =>
      if delta.text == "" || delta.ThinkingDelta? then A.Nothing
      else if delta.TextDelta? then A.Text(delta.text) else A.Json(i, delta.text)
    case BlockStop(_) => A.Nothing
    case MessageDelta(stop, output) => A.Conclude(Some(output), Some(stop))
    case MessageStop => A.Halt
  }

  lemma DecodeEncode(f: AnthropicFrame, input: Option<int>)
    ensures A.Decode(EventOf(f, input)) == ActionOf(f, input)
  {
    assert A.TypeOf(EventOf(f, input)) == Encode(f, input).typ;
    match f
    case BlockDeltaFrame(i, delta) => DecodeEncodeDelta(i, delta, input);
    case BlockStart(i, head) => DecodeEncodeStart(i, head, input);
    case MessageStart(_, _) =>
    case BlockStop(_) =>
    case MessageDelta(_, _) =>
    case MessageStop =>
  }

  lemma DecodeEncodeStart(i: int, head: BlockHead, input: Option<int>)
    ensures A.DecodeStart(i, Encode(BlockStart(i, head), input).contentBlock) == ActionOf(BlockStart(i, head), input)
  {
  }

  lemma DecodeEncodeDelta(i: int, delta: BlockDelta, input: Option<int>)
    ensures
      A.DecodeDelta(i, Encode(BlockDeltaFrame(i, delta), input).delta) == ActionOf(BlockDeltaFrame(i, delta), input)
  {
  }

  // ----- First half: the Chat units of a well-formed stream -----

  function ActionsOf(fs: seq<AnthropicFrame>, input: Option<int>): seq<A.Action> {
    if fs == [] then [] else ActionsOf(fs[..|fs| - 1], input) + [ActionOf(fs[|fs| - 1], input)]
  }

  function Mapped<T, U>(items: seq<T>, f: T -> U): seq<U> {
    seq(|items|, i requires 0 <= i < |items| => f(items[i]))
  }

  lemma ActionsAreMapped(events: seq<AnthropicEvent>)
    ensures A.Actions(events) == Mapped(events, A.Decode)
  {
  }

  lemma {:induction false} EventsMapped(fs: seq<AnthropicFrame>, input: Option<int>, decode: AnthropicEvent -> A.Action)
    requires forall f :: decode(EventOf(f, input)) == ActionOf(f, input)
    ensures Mapped(Events(fs, input), decode) == ActionsOf(fs, input)
  {
    if fs != [] {
      var front, last := fs[..|fs| - 1], fs[|fs| - 1];
      EventsMapped(front, input, decode);
      assert Events(fs, input) == Events(front, input) + [EventOf(last, input)];
    }
  }

  lemma ActionsOfEvents(fs: seq<AnthropicFrame>, input: Option<int>)
    ensures A.Actions(Events(fs, input)) == ActionsOf(fs, input)
  {
    ActionsAreMapped(Events(fs, input));
    forall f ensures A.Decode(EventOf(f, input)) == ActionOf(f, input) {
      DecodeEncode(f, input);
    }
    EventsMapped(fs, input, A.Decode);
  }

  lemma {:induction false} ActionsOfAppend(fs: seq<AnthropicFrame>, gs: seq<AnthropicFrame>, input: Option<int>)
    ensures ActionsOf(fs + gs, input) == ActionsOf(fs, input) + ActionsOf(gs, input)
  {
    if gs == [] {
      assert fs + gs == fs;
    } else {
      var front := gs[..|gs| - 1];
      assert (fs + gs)[..|fs + gs| - 1] == fs + front;
      ActionsOfAppend(fs, front, input);
      Assoc(ActionsOf(fs, input), ActionsOf(front, input), [ActionOf(gs[|gs| - 1], input)]);
    }
  }

  lemma {:induction false} RunAppend(ids: IdSource, s: A.State, xs: seq<A.Action>, ys: seq<A.Action>)
    ensures
      var (s1, fs1) := A.Run(ids, s, xs);
      var (s2, fs2) := A.Run(ids, s1, ys);
      A.Run(ids, s, xs + ys).0 == s2 && A.Run(ids, s, xs + ys).1 == fs1 + fs2
  {
    if ys == [] {
      assert xs + ys == xs;
    } else {
      var front := ys[..|ys| - 1];
      assert (xs + ys)[..|xs + ys| - 1] == xs + front;
      RunAppend(ids, s, xs, front);
      var (s1, fs1) := A.Run(ids, s, xs);
      var (s2, fs2) := A.Run(ids, s1, front);
      Assoc(fs1, fs2, A.Step(ids, s2, ys[|ys| - 1]).1);
    }
  }

  function FragmentUnits(p: Piece, tool: int, deltas: seq<string>): seq<C.Unit> {
    if deltas == [] then []
    else FragmentUnits(p, tool, deltas[..|deltas| - 1]) + FragmentUnit(p, tool, deltas[|deltas| - 1])
  }

  function FragmentUnit(p: Piece, tool: int, text: string): seq<C.Unit> {
    if text == "" || p.ThinkingPiece? then [] else if p.TextPiece? then [C.Say(text)] else [C.Call(tool, "", "", text)]
  }

  function HeadUnits(p: Piece, tool: int): seq<C.Unit> {
    if p.ToolPiece? then [C.Call(tool, p.id, p.name, "")] else []
  }

  function ToolsWith(p: Piece, tools: nat): nat {
    if p.ToolPiece? then tools + 1 else tools
  }

  function Tools(ps: seq<Piece>): nat {
    if ps == [] then 0 else ToolsWith(ps[|ps| - 1], Tools(ps[..|ps| - 1]))
  }

  /** What a well-formed stream says on the Chat side: tools numbered in order, thinking and empty fragments gone. */
  function PieceUnits(ps: seq<Piece>): seq<C.Unit> {
    if ps == [] then []
    else
      var n := |ps| - 1;
      PieceUnits(ps[..n]) + HeadUnits(ps[n], Tools(ps[..n])) + FragmentUnits(ps[n], Tools(ps[..n]), ps[n].deltas)
  }

  ghost predicate Named(fs: seq<ChatFrame>, model: string) {
    forall k :: 0 <= k < |fs| && fs[k].Data? ==> fs[k].chunk.model == model
  }

  /** The state after some blocks: tools numbered so far, nothing ended. */
  ghost predicate Ready(s: A.State, blocks: nat, tools: nat, model: string, input: Option<int>) {
    && !s.finished && s.toolIndex == tools
    && (forall b :: b in s.toolByBlock ==> 0 <= b < blocks)
    && (forall k :: 0 <= k < tools ==> k in s.toolStarted)
    && s.model == model && s.promptTokens == input
  }

  /** The run from `s` on these actions says these units and ends ready. */
  ghost predicate Says(ids: IdSource, s: A.State, actions: seq<A.Action>, us: seq<C.Unit>, blocks: nat, tools: nat) {
    var (s', fs) := A.Run(ids, s, actions);
    U.UnitsIn(fs) == us && Named(fs, s.model) && Ready(s', blocks, tools, s.model, s.promptTokens)
  }

  lemma SaysOne(ids: IdSource, s: A.State, a: A.Action)
    ensures A.Run(ids, s, [a]) == A.Step(ids, s, a)
  {
    assert [a][..0] == [];
    assert A.Run(ids, s, []) == (s, []);
    assert [] + A.Step(ids, s, a).1 == A.Step(ids, s, a).1;
  }

  lemma SaysThen(ids: IdSource, s: A.State, xs: seq<A.Action>, us: seq<C.Unit>, ys: seq<A.Action>, vs: seq<C.Unit>,
      b1: nat, t1: nat, b2: nat, t2: nat)
    requires Says(ids, s, xs, us, b1, t1) && Says(ids, A.Run(ids, s, xs).0, ys, vs, b2, t2)
    ensures Says(ids, s, xs + ys, us + vs, b2, t2)
  {
    RunAppend(ids, s, xs, ys);
    U.UnitsInAppend(A.Run(ids, s, xs).1, A.Run(ids, A.Run(ids, s, xs).0, ys).1);
  }

  lemma HeadSays(ids: IdSource, s: A.State, i: nat, p: Piece, tools: nat, input: Option<int>)
    requires Ready(s, i, tools, s.model, s.promptTokens) && (p.ToolPiece? ==> p.id != "")
    ensures
      Says(ids, s, [ActionOf(BlockStart(i, HeadOf(p)), input)], HeadUnits(p, tools), i + 1, ToolsWith(p, tools))
    ensures p.ToolPiece? ==>
              var s' := A.Run(ids, s, [ActionOf(BlockStart(i, HeadOf(p)), input)]).0;
              i in s'.toolByBlock && s'.toolByBlock[i] == tools
  {
    if p.ToolPiece? {
      ToolSays(ids, s, i, p.id, p.name, tools);
    } else {
      NothingSays(ids, s, i + 1, tools);
    }
  }

  lemma ToolSays(ids: IdSource, s: A.State, i: nat, id: string, name: string, tools: nat)
    requires Ready(s, i, tools, s.model, s.promptTokens) && id != ""
    ensures Says(ids, s, [A.OpenTool(i, id, name)], [C.Call(tools, id, name, "")], i + 1, tools + 1)
    ensures
      var s' := A.Run(ids, s, [A.OpenTool(i, id, name)]).0;
      i in s'.toolByBlock && s'.toolByBlock[i] == tools
  {
    SaysOne(ids, s, A.OpenTool(i, id, name));
    AP.StepUnits(ids, s, A.OpenTool(i, id, name));
  }

  lemma NothingSays(ids: IdSource, s: A.State, blocks: nat, tools: nat)
    requires Ready(s, blocks, tools, s.model, s.promptTokens)
    ensures Says(ids, s, [A.Nothing], [], blocks, tools)
    ensures A.Run(ids, s, [A.Nothing]).0 == s
  {
    SaysOne(ids, s, A.Nothing);
    assert U.UnitsIn([]) == [];
  }

  lemma TextSays(ids: IdSource, s: A.State, text: string, blocks: nat, tools: nat)
    requires Ready(s, blocks, tools, s.model, s.promptTokens) && text != ""
    ensures Says(ids, s, [A.Text(text)], [C.Say(text)], blocks, tools)
    ensures A.Run(ids, s, [A.Text(text)]).0.toolByBlock == s.toolByBlock
  {
    SaysOne(ids, s, A.Text(text));
    AP.StepUnits(ids, s, A.Text(text));
  }

  lemma JsonSays(ids: IdSource, s: A.State, i: nat, json: string, tool: nat, blocks: nat, tools: nat)
    requires Ready(s, blocks, tools, s.model, s.promptTokens)
    requires tool < tools && i in s.toolByBlock && s.toolByBlock[i] == tool
    ensures Says(ids, s, [A.Json(i, json)], [C.Call(tool, "", "", json)], blocks, tools)
    ensures A.Run(ids, s, [A.Json(i, json)]).0.toolByBlock == s.toolByBlock
  {
    SaysOne(ids, s, A.Json(i, json));
    AP.StepUnits(ids, s, A.Json(i, json));
    assert A.JsonIndex(s, i) == tool && tool in s.toolStarted;
    assert [] + [C.Call(tool, "", "", json)] == [C.Call(tool, "", "", json)];
  }

  lemma FragmentSays(ids: IdSource, s: A.State, i: nat, p: Piece, text: string, tool: nat, tools: nat,
      input: Option<int>)
    requires Ready(s, i + 1, tools, s.model, s.promptTokens)
    requires p.ToolPiece? ==> tool < tools && i in s.toolByBlock && s.toolByBlock[i] == tool
    ensures
      Says(ids, s, [ActionOf(BlockDeltaFrame(i, Fragment(p, text)), input)], FragmentUnit(p, tool, text), i + 1, tools)
    ensures A.Run(ids, s, [ActionOf(BlockDeltaFrame(i, Fragment(p, text)), input)]).0.toolByBlock == s.toolByBlock
  {
    if text == "" || p.ThinkingPiece? {
      NothingSays(ids, s, i + 1, tools);
    } else if p.TextPiece? {
      TextSays(ids, s, text, i + 1, tools);
    } else {
      JsonSays(ids, s, i, text, tool, i + 1, tools);
    }
  }

  lemma {:induction false} DeltasSay(ids: IdSource, s: A.State, i: nat, p: Piece, deltas: seq<string>, tool: nat,
      tools: nat, input: Option<int>)
    requires Ready(s, i + 1, tools, s.model, s.promptTokens)
    requires p.ToolPiece? ==> tool < tools && i in s.toolByBlock && s.toolByBlock[i] == tool
    ensures Says(ids, s, ActionsOf(Deltas(i, p, deltas), input), FragmentUnits(p, tool, deltas), i + 1, tools)
    ensures A.Run(ids, s, ActionsOf(Deltas(i, p, deltas), input)).0.toolByBlock == s.toolByBlock
  {
    if deltas == [] {
      assert U.UnitsIn([]) == [];
    } else {
      var front, d := deltas[..|deltas| - 1], deltas[|deltas| - 1];
      var xs, f := ActionsOf(Deltas(i, p, front), input), BlockDeltaFrame(i, Fragment(p, d));
      DeltasSay(ids, s, i, p, front, tool, tools, input);
      var s' := A.Run(ids, s, xs).0;
      FragmentSays(ids, s', i, p, d, tool, tools, input);
      assert Deltas(i, p, deltas)[..|Deltas(i, p, front)|] == Deltas(i, p, front);
      SaysThen(ids, s, xs, FragmentUnits(p, tool, front), [ActionOf(f, input)], FragmentUnit(p, tool, d),
               i + 1, tools, i + 1, tools);
      RunAppend(ids, s, xs, [ActionOf(f, input)]);
    }
  }

  /** A block up to its last delta. */
  lemma OpenSays(ids: IdSource, s: A.State, i: nat, p: Piece, tools: nat, input: Option<int>)
    requires Ready(s, i, tools, s.model, s.promptTokens) && (p.ToolPiece? ==> p.id != "")
    ensures Says(ids, s, ActionsOf(OpenPiece(i, p), input), HeadUnits(p, tools) + FragmentUnits(p, tools, p.deltas),
                 i + 1, ToolsWith(p, tools))
  {
    var more := ToolsWith(p, tools);
    var head := [ActionOf(BlockStart(i, HeadOf(p)), input)];
    var body := ActionsOf(Deltas(i, p, p.deltas), input);
    HeadSays(ids, s, i, p, tools, input);
    DeltasSay(ids, A.Run(ids, s, head).0, i, p, p.deltas, tools, more, input);
    SaysThen(ids, s, head, HeadUnits(p, tools), body, FragmentUnits(p, tools, p.deltas), i + 1, more, i + 1, more);
    ActionsOfOne(BlockStart(i, HeadOf(p)), input);
    ActionsOfAppend([BlockStart(i, HeadOf(p))], Deltas(i, p, p.deltas), input);
  }

  lemma PieceSays(ids: IdSource, s: A.State, i: nat, p: Piece, tools: nat, input: Option<int>)
    requires Ready(s, i, tools, s.model, s.promptTokens) && (p.ToolPiece? ==> p.id != "")
    ensures
      Says(ids, s, ActionsOf(OpenPiece(i, p) + [BlockStop(i)], input),
           HeadUnits(p, tools) + FragmentUnits(p, tools, p.deltas), i + 1, ToolsWith(p, tools))
  {
    var more := ToolsWith(p, tools);
    var open, stop := ActionsOf(OpenPiece(i, p), input), [ActionOf(BlockStop(i), input)];
    var us := HeadUnits(p, tools) + FragmentUnits(p, tools, p.deltas);
    OpenSays(ids, s, i, p, tools, input);
    NothingSays(ids, A.Run(ids, s, open).0, i + 1, more);
    SaysThen(ids, s, open, us, stop, [], i + 1, more, i + 1, more);
    assert us + [] == us;
    ActionsOfOne(BlockStop(i), input);
    ActionsOfAppend(OpenPiece(i, p), [BlockStop(i)], input);
  }

  lemma ActionsOfOne(f: AnthropicFrame, input: Option<int>)
    ensures ActionsOf([f], input) == [ActionOf(f, input)]
  {
    assert [f][..0] == [];
    assert ActionsOf([], input) == [];
  }

  lemma {:induction false} PiecesSay(ids: IdSource, s: A.State, ps: seq<Piece>, input: Option<int>)
    requires Ready(s, 0, 0, s.model, s.promptTokens) && WellFormed(ps)
    ensures Says(ids, s, ActionsOf(Pieces(ps), input), PieceUnits(ps), |ps|, Tools(ps))
  {
    if ps == [] {
      assert U.UnitsIn([]) == [];
    } else {
      var n := |ps| - 1;
      var front, p := ps[..n], ps[n];
      PiecesSay(ids, s, front, input);
      var xs := ActionsOf(Pieces(front), input);
      PieceSays(ids, A.Run(ids, s, xs).0, n, p, Tools(front), input);
      var more := HeadUnits(p, Tools(front)) + FragmentUnits(p, Tools(front), p.deltas);
      SaysThen(ids, s, xs, PieceUnits(front), ActionsOf(OpenPiece(n, p) + [BlockStop(n)], input), more, n,
        Tools(front), |ps|, Tools(ps));
      Assoc(PieceUnits(front), HeadUnits(p, Tools(front)), FragmentUnits(p, Tools(front), p.deltas));
      Assoc(Pieces(front), OpenPiece(n, p), [BlockStop(n)]);
      ActionsOfAppend(Pieces(front), OpenPiece(n, p) + [BlockStop(n)], input);
    }
  }

  // ----- Second half: the Anthropic frames of those units -----

  function KindOf(p: Piece): C.Kind {
    match p
    case TextPiece(_) => C.InText
    case ThinkingPiece(_) => C.InThinking
    case ToolPiece(_, _, _) => C.InTool
  }

  /** The second translator has written these blocks, the last one still open, and knows these tools. */
  ghost predicate Wrote(b: C.Blocks, ps: seq<Piece>, tools: nat) {
    && b.next == |ps|
    && b.open == (if ps == [] then C.Closed else KindOf(ps[|ps| - 1]))
    && (forall k :: k in b.tools <==> 0 <= k < tools)
  }

  lemma PiecesClose(b: C.Blocks, ps: seq<Piece>, tools: nat)
    requires Wrote(b, ps, tools)
    ensures Pieces(ps) == OpenPieces(ps) + C.StopOpen(b)
  {
  }

  lemma NewPiece(b: C.Blocks, ps: seq<Piece>, tools: nat, p: Piece)
    requires Wrote(b, ps, tools)
    ensures OpenPieces(ps + [p]) == OpenPieces(ps) + (C.StopOpen(b) + OpenPiece(|ps|, p))
  {
    PiecesClose(b, ps, tools);
    assert (ps + [p])[..|ps|] == ps;
    Assoc(OpenPieces(ps), C.StopOpen(b), OpenPiece(|ps|, p));
  }

  /** One more fragment in the last block. */
  lemma GrowLast(ps: seq<Piece>, p: Piece, text: string, p': Piece)
    requires HeadOf(p) == HeadOf(p') && p'.deltas == p.deltas + [text]
    ensures OpenPieces(ps + [p']) == OpenPieces(ps + [p]) + [BlockDeltaFrame(|ps|, Fragment(p, text))]
  {
    var i, f := |ps|, [BlockDeltaFrame(|ps|, Fragment(p, text))];
    LastOpen(ps, p);
    LastOpen(ps, p');
    GrowPiece(i, p, text, p');
    Assoc(Pieces(ps), OpenPiece(i, p), f);
  }

  lemma LastOpen(ps: seq<Piece>, p: Piece)
    ensures OpenPieces(ps + [p]) == Pieces(ps) + OpenPiece(|ps|, p)
  {
    assert (ps + [p])[..|ps|] == ps;
  }

  lemma GrowPiece(i: int, p: Piece, text: string, p': Piece)
    requires HeadOf(p) == HeadOf(p') && p'.deltas == p.deltas + [text]
    ensures OpenPiece(i, p') == OpenPiece(i, p) + [BlockDeltaFrame(i, Fragment(p, text))]
  {
    assert p'.deltas[..|p.deltas|] == p.deltas;
    DeltasSame(i, p, p', p.deltas);
    Assoc([BlockStart(i, HeadOf(p))], Deltas(i, p, p.deltas), [BlockDeltaFrame(i, Fragment(p, text))]);
  }

  lemma {:induction false} DeltasSame(i: int, p: Piece, p': Piece, deltas: seq<string>)
    requires HeadOf(p) == HeadOf(p')
    ensures Deltas(i, p, deltas) == Deltas(i, p', deltas)
  {
    if deltas != [] { DeltasSame(i, p, p', deltas[..|deltas| - 1]); }
  }

  /** Emitting `us` after the blocks `ps` writes exactly what turns them into `ps'`. */
  ghost predicate Writes(ids: IdSource, b: C.Blocks, ps: seq<Piece>, us: seq<C.Unit>, ps': seq<Piece>, tools: nat) {
    && Wrote(C.EmitAll(ids, b, us).0, ps', tools)
    && OpenPieces(ps') == OpenPieces(ps) + C.EmitAll(ids, b, us).1
  }

  lemma WritesThen(ids: IdSource, b: C.Blocks, ps: seq<Piece>, us: seq<C.Unit>, ps1: seq<Piece>, t1: nat,
      vs: seq<C.Unit>, ps2: seq<Piece>, t2: nat)
    requires Writes(ids, b, ps, us, ps1, t1) && Writes(ids, C.EmitAll(ids, b, us).0, ps1, vs, ps2, t2)
    ensures Writes(ids, b, ps, us + vs, ps2, t2)
  {
    C.EmitAllAppend(ids, b, us, vs);
    Assoc(OpenPieces(ps), C.EmitAll(ids, b, us).1, C.EmitAll(ids, C.EmitAll(ids, b, us).0, vs).1);
  }

  lemma WritesNothing(ids: IdSource, b: C.Blocks, ps: seq<Piece>, tools: nat)
    requires Wrote(b, ps, tools)
    ensures Writes(ids, b, ps, [], ps, tools)
  {
    assert OpenPieces(ps) + [] == OpenPieces(ps);
  }

  lemma EmitOne(ids: IdSource, b: C.Blocks, u: C.Unit)
    ensures C.EmitAll(ids, b, [u]).0 == C.Emit(ids, b, u).0 && C.EmitAll(ids, b, [u]).1 == C.Emit(ids, b, u).1
  {
    C.EmitAllSnoc(ids, b, [], u);
    assert C.EmitAll(ids, b, []) == (b, []);
  }

  lemma OnePieceDeltas(i: int, p: Piece, text: string)
    requires p.deltas == [text]
    ensures OpenPiece(i, p) == [BlockStart(i, HeadOf(p)), BlockDeltaFrame(i, Fragment(p, text))]
  {
    assert [text][..0] == [];
    assert Deltas(i, p, []) == [];
    assert Deltas(i, p, [text]) == [BlockDeltaFrame(i, Fragment(p, text))];
  }

  lemma TextOpens(ids: IdSource, b: C.Blocks, ps: seq<Piece>, tools: nat, text: string)
    requires Wrote(b, ps, tools) && !b.open.InText?
    ensures Writes(ids, b, ps, [C.Say(text)], ps + [TextPiece([text])], tools)
  {
    var p := TextPiece([text]);
    EmitOne(ids, b, C.Say(text));
    NewPiece(b, ps, tools, p);
    OnePieceDeltas(|ps|, p, text);
    assert C.Emit(ids, b, C.Say(text)).1 == C.StopOpen(b) + OpenPiece(|ps|, p);
  }

  lemma TextWrites(ids: IdSource, b: C.Blocks, ps: seq<Piece>, tools: nat, text: string)
    requires Wrote(b, ps, tools)
    ensures Writes(ids, b, ps, [C.Say(text)], AddText(ps, [text]), tools)
  {
    if b.open.InText? { TextGrows(ids, b, ps, tools, text); } else { TextOpens(ids, b, ps, tools, text); }
  }

  lemma TextGrows(ids: IdSource, b: C.Blocks, ps: seq<Piece>, tools: nat, text: string)
    requires Wrote(b, ps, tools) && b.open.InText?
    ensures Writes(ids, b, ps, [C.Say(text)], AddText(ps, [text]), tools)
  {
    var front, last := ps[..|ps| - 1], ps[|ps| - 1];
    EmitOne(ids, b, C.Say(text));
    GrowLast(front, last, text, TextPiece(last.deltas + [text]));
    assert front + [last] == ps;
  }

  lemma AddTextTwice(ps: seq<Piece>, deltas: seq<string>, text: string)
    ensures AddText(AddText(ps, deltas), [text]) == AddText(ps, deltas + [text])
  {
    if deltas == [] {
      assert [] + [text] == [text];
    } else {
      var once := AddText(ps, deltas);
      var base := if ps != [] && ps[|ps| - 1].TextPiece? then ps[..|ps| - 1] else ps;
      assert once[..|once| - 1] == base;
      if base != ps {
        Assoc(ps[|ps| - 1].deltas, deltas, [text]);
      }
    }
  }

  lemma {:induction false} TextPieceWrites(ids: IdSource, b: C.Blocks, ps: seq<Piece>, tools: nat, p: Piece,
      deltas: seq<string>)
    requires Wrote(b, ps, tools) && p.TextPiece?
    ensures Writes(ids, b, ps, FragmentUnits(p, tools, deltas), AddText(ps, NonEmpty(deltas)), tools)
  {
    if deltas == [] {
      WritesNothing(ids, b, ps, tools);
    } else {
      var front, d := deltas[..|deltas| - 1], deltas[|deltas| - 1];
      TextPieceWrites(ids, b, ps, tools, p, front);
      var us, ps1 := FragmentUnits(p, tools, front), AddText(ps, NonEmpty(front));
      if d == "" {
        assert us + [] == us;
        assert NonEmpty(front) + [] == NonEmpty(front);
      } else {
        TextWrites(ids, C.EmitAll(ids, b, us).0, ps1, tools, d);
        AddTextTwice(ps, NonEmpty(front), d);
        WritesThen(ids, b, ps, us, ps1, tools, [C.Say(d)], AddText(ps1, [d]), tools);
      }
    }
  }

  lemma {:induction false} ThinkingUnits(p: Piece, tool: int, deltas: seq<string>)
    requires p.ThinkingPiece?
    ensures FragmentUnits(p, tool, deltas) == []
  {
    if deltas != [] { ThinkingUnits(p, tool, deltas[..|deltas| - 1]); }
  }

  lemma ToolHeadWrites(ids: IdSource, b: C.Blocks, ps: seq<Piece>, tools: nat, id: string, name: string)
    requires Wrote(b, ps, tools) && id != ""
    ensures Writes(ids, b, ps, [C.Call(tools, id, name, "")], ps + [ToolPiece(id, name, [])], tools + 1)
    ensures
      var b' := C.EmitAll(ids, b, [C.Call(tools, id, name, "")]).0;
      tools in b'.tools && b'.tools[tools] == |ps|
  {
    EmitOne(ids, b, C.Call(tools, id, name, ""));
    NewPiece(b, ps, tools, ToolPiece(id, name, []));
    assert OpenPiece(|ps|, ToolPiece(id, name, [])) == [BlockStart(|ps|, ToolHead(id, name))];
    assert C.StopOpen(b) + [BlockStart(|ps|, ToolHead(id, name))] + [] == C.StopOpen(b) +
      [BlockStart(|ps|, ToolHead(id, name))];
  }

  lemma {:induction false} ToolPieceWrites(ids: IdSource, b: C.Blocks, ps: seq<Piece>, tools: nat, p: Piece,
      deltas: seq<string>)
    requires p.ToolPiece? && Wrote(b, ps + [ToolPiece(p.id, p.name, [])], tools + 1)
    requires tools in b.tools && b.tools[tools] == |ps|
    ensures Writes(ids, b, ps + [ToolPiece(p.id, p.name, [])], FragmentUnits(p, tools, deltas),
                   ps + [ToolPiece(p.id, p.name, NonEmpty(deltas))], tools + 1)
    ensures C.EmitAll(ids, b, FragmentUnits(p, tools, deltas)).0 == b
  {
    var start := ps + [ToolPiece(p.id, p.name, [])];
    if deltas == [] {
      WritesNothing(ids, b, start, tools + 1);
    } else {
      var front, d := deltas[..|deltas| - 1], deltas[|deltas| - 1];
      ToolPieceWrites(ids, b, ps, tools, p, front);
      var us, before := FragmentUnits(p, tools, front), ToolPiece(p.id, p.name, NonEmpty(front));
      if d == "" {
        assert us + [] == us;
        assert NonEmpty(front) + [] == NonEmpty(front);
      } else {
        var after := ToolPiece(p.id, p.name, NonEmpty(front) + [d]);
        EmitOne(ids, b, C.Call(tools, "", "", d));
        GrowLast(ps, before, d, after);
        WritesThen(ids, b, start, us, ps + [before], tools + 1, [C.Call(tools, "", "", d)], ps + [after], tools + 1);
        C.EmitAllAppend(ids, b, us, [C.Call(tools, "", "", d)]);
      }
    }
  }

  lemma {:induction false} PieceUnitsWrite(ids: IdSource, ps: seq<Piece>)
    requires WellFormed(ps)
    ensures Writes(ids, C.NO_BLOCKS, [], PieceUnits(ps), Normalize(ps), Tools(ps))
  {
    if ps == [] {
      WritesNothing(ids, C.NO_BLOCKS, [], 0);
    } else {
      var n := |ps| - 1;
      var front, p := ps[..n], ps[n];
      PieceUnitsWrite(ids, front);
      var us, norm, tools := PieceUnits(front), Normalize(front), Tools(front);
      var b := C.EmitAll(ids, C.NO_BLOCKS, us).0;
      match p
      case TextPiece(deltas) =>
        TextPieceWrites(ids, b, norm, tools, p, deltas);
        WritesThen(ids, C.NO_BLOCKS, [], us, norm, tools, FragmentUnits(p, tools, deltas), Normalize(ps), tools);
        assert us + [] == us;
      case ThinkingPiece(deltas) =>
        ThinkingUnits(p, tools, deltas);
        assert us + [] + [] == us;
      case ToolPiece(id, name, deltas) =>
        ToolHeadWrites(ids, b, norm, tools, id, name);
        var head := HeadUnits(p, tools);
        WritesThen(ids, C.NO_BLOCKS, [], us, norm, tools, head, norm + [ToolPiece(id, name, [])], tools + 1);
        C.EmitAllAppend(ids, C.NO_BLOCKS, us, head);
        ToolPieceWrites(ids, C.EmitAll(ids, b, head).0, norm, tools, p, deltas);
        WritesThen(ids, C.NO_BLOCKS, [], us + head, norm + [ToolPiece(id, name, [])], tools + 1,
                   FragmentUnits(p, tools, deltas), Normalize(ps), tools + 1);
    }
  }

  // ----- The round trip -----

  /** Reading a stream of events through both translators. */
  function ThroughChat(
    ids: IdSource, model: string, id: string, ids': IdSource, model': string, id': string, events: seq<AnthropicEvent>
  ): seq<AnthropicFrame> {
    C.Stream(ids', model', id', U.Received(A.Stream(ids, model, id, A.Actions(events))))
  }

  function StopAfter(stop: string): string {
    C.ChatFinishToAnthropic(A.AnthropicStopToChat(stop))
  }

  /** The stop reason survives exactly for the four reasons Chat can express. */
  lemma StopSurvives(stop: string)
    ensures StopAfter(stop) == stop <==> stop in {"end_turn", "max_tokens", "tool_use", "refusal"}
  {
    var chat := A.AnthropicStopToChat(stop);
    if stop == "max_tokens" {
      assert chat == "length";
    } else if stop == "tool_use" {
      assert chat == "tool_calls";
    } else if stop == "refusal" {
      assert chat == "content_filter";
    } else {
      assert chat == "stop";
      assert C.ChatFinishToAnthropic("stop") == "end_turn";
    }
  }

  ghost predicate StillOpen(fs: seq<ChatFrame>) {
    forall k :: 0 <= k < |fs| ==> fs[k].Data? && !C.Finishes(fs[k].chunk)
  }

  lemma {:induction false} OpenRunStillOpen(ids: IdSource, s: A.State, actions: seq<A.Action>)
    requires !A.Run(ids, s, actions).0.finished
    ensures StillOpen(A.Run(ids, s, actions).1)
  {
    if actions != [] {
      OpenRunStillOpen(ids, s, actions[..|actions| - 1]);
    }
  }

  lemma {:induction false} ChunksOfOpen(fs: seq<ChatFrame>, model: string)
    requires StillOpen(fs) && Named(fs, model)
    ensures |ChunksOf(fs)| == |fs|
    ensures forall k :: 0 <= k < |fs| ==> ChunksOf(fs)[k] == fs[k].chunk
  {
    if fs != [] {
      ChunksOfOpen(fs[1..], model);
    }
  }

  /** The whole first half: open chunks that say the pieces, then one finishing chunk and [DONE]. */
  lemma FirstHalf(ids: IdSource, model: string, id: string, name: string, aid: string, ps: seq<Piece>, stop: string,
      output: Option<int>, input: Option<int>)
    returns (body: seq<ChatFrame>, last: ChatChunk)
    requires WellFormed(ps)
    ensures
      A.Stream(ids, model, id, A.Actions(Events(Render(aid, name, ps, stop, output), input))) == body +
        [Data(last), Done]
    ensures StillOpen(body) && U.UnitsIn(body) == PieceUnits(ps)
    ensures Named(body, if model == "" then name else model)
    ensures last.model == if model == "" then name else model
    ensures last.choices == [Choice(EMPTY_DELTA, Some(A.AnthropicStopToChat(stop)))] && C.CompletionOf(last) == output
  {
    var tail := [MessageDelta(stop, output), MessageStop];
    var frames := Render(aid, name, ps, stop, output);
    var s0, begin := A.Start(model, id), MessageStart(aid, name);
    ActionsOfEvents(frames, input);
    ActionsOfAppend([begin] + Pieces(ps), tail, input);
    ActionsOfAppend([begin], Pieces(ps), input);
    ActionsOfOne(begin, input);
    var first, middle := [ActionOf(begin, input)], ActionsOf(Pieces(ps), input);
    SaysOne(ids, s0, first[0]);
    var s1 := A.Run(ids, s0, first).0;
    PiecesSay(ids, s1, ps, input);
    var s2 := A.Run(ids, s1, middle).0;
    body := A.Run(ids, s1, middle).1;
    OpenRunStillOpen(ids, s1, middle);
    RunAppend(ids, s0, first, middle);
    assert [] + body == body;
    last := TailRun(ids, s2, stop, output, input);
    RunAppend(ids, s0, first + middle, ActionsOf(tail, input));
    assert body + [Data(last), Done] + [] == body + [Data(last), Done];
  }

  lemma TailRun(ids: IdSource, s: A.State, stop: string, output: Option<int>, input: Option<int>)
    returns (last: ChatChunk)
    requires !s.finished
    ensures
      var (s', fs) := A.Run(ids, s, ActionsOf([MessageDelta(stop, output), MessageStop], input));
      s'.finished && fs == [Data(last), Done]
    ensures last.model == s.model && last.choices == [Choice(EMPTY_DELTA, Some(A.AnthropicStopToChat(stop)))]
    ensures C.CompletionOf(last) == output
  {
    var m, e := MessageDelta(stop, output), MessageStop;
    assert [m, e] == [m] + [e];
    ActionsOfAppend([m], [e], input);
    ActionsOfOne(m, input);
    ActionsOfOne(e, input);
    RunAppend(ids, s, [ActionOf(m, input)], [ActionOf(e, input)]);
    SaysOne(ids, s, ActionOf(m, input));
    AP.StopNonEmpty(stop);
    var (s1, fs1) := A.Step(ids, s, ActionOf(m, input));
    SaysOne(ids, s1, ActionOf(e, input));
    last := fs1[0].chunk;
    assert fs1 + [] == fs1;
  }

  /** The stream as it is, frame by frame. */
  lemma FramesRoundTrip(ids: IdSource, model: string, id: string, ids': IdSource, model': string, id': string,
      name: string, aid: string, ps: seq<Piece>, stop: string, output: Option<int>, input: Option<int>)
    requires WellFormed(ps)
    ensures
      var served := if model' != "" then model' else if model != "" then model else name;
      ThroughChat(ids, model, id, ids', model', id', Events(Render(aid, name, ps, stop, output), input))
      == Render(id', served, Normalize(ps), StopAfter(stop), output)
  {
    var body, last := FirstHalf(ids, model, id, name, aid, ps, stop, output, input);
    var named := if model == "" then name else model;
    var chunks := ReceivedChunks(body, last, named);
    assert P.Units(chunks) == PieceUnits(ps);
    assert P.NameIn(model', chunks) == if model' != "" then model' else named;
    P.RunIs(ids', model', id', U.SomeAll(chunks));
    SecondHalf(ids', ps, P.StopIn(chunks), P.OutputIn(chunks));
    var (b, middle) := C.EmitAll(ids', C.NO_BLOCKS, PieceUnits(ps));
    var (s, out) := C.Run(ids', C.Start(model', id'), U.SomeAll(chunks));
    assert P.RanTo(ids', model', id', chunks, s, out);
    var head := [MessageStart(id', P.NameIn(model', chunks))];
    assert out == head + middle + C.Closing(b, StopAfter(stop), output);
    assert out + [] == out;
    Assoc(head, middle, C.Closing(b, StopAfter(stop), output));
    Assoc(head, Pieces(Normalize(ps)), [MessageDelta(StopAfter(stop), output), MessageStop]);
  }

  predicate IsActive(a: A.Action) {
    !a.Nothing?
  }

  /** Not so pings, unknown events and events that do not decode: the translator passes over them. */
  predicate IsHeeded(e: AnthropicEvent) {
    IsActive(A.Decode(e))
  }

  lemma PingIsIgnored(e: AnthropicEvent)
    requires e.payload.None? || A.TypeOf(e) == "ping"
    ensures !IsHeeded(e)
  {
  }

  function Kept<T>(items: seq<T>, keep: T -> bool): seq<T> {
    if items == [] then []
    else Kept(items[..|items| - 1], keep) + if keep(items[|items| - 1]) then [items[|items| - 1]] else []
  }

  lemma {:induction false} KeptMapped<T(!new), U>(items: seq<T>, f: T -> U, keepItem: T -> bool, keep: U -> bool)
    requires forall t :: keepItem(t) == keep(f(t))
    ensures Mapped(Kept(items, keepItem), f) == Kept(Mapped(items, f), keep)
  {
    if items != [] {
      var front, last := items[..|items| - 1], items[|items| - 1];
      KeptMapped(front, f, keepItem, keep);
      assert Mapped(items, f)[..|front|] == Mapped(front, f);
    }
  }

  function Heeded(events: seq<AnthropicEvent>): seq<AnthropicEvent> {
    Kept(events, IsHeeded)
  }

  function Active(actions: seq<A.Action>): seq<A.Action> {
    Kept(actions, IsActive)
  }

  lemma HeededAreActive(events: seq<AnthropicEvent>)
    ensures A.Actions(Heeded(events)) == Active(A.Actions(events))
  {
    ActionsAreMapped(events);
    ActionsAreMapped(Heeded(events));
    KeptMapped(events, A.Decode, IsHeeded, IsActive);
  }

  /** Doing nothing changes nothing. */
  lemma {:induction false} ActiveRuns(ids: IdSource, s: A.State, actions: seq<A.Action>)
    ensures A.Run(ids, s, actions) == A.Run(ids, s, Active(actions))
  {
    if actions != [] {
      var front, a := actions[..|actions| - 1], actions[|actions| - 1];
      ActiveRuns(ids, s, front);
      if a.Nothing? {
        assert Active(front) + [] == Active(front);
        assert A.Run(ids, s, front).1 + [] == A.Run(ids, s, front).1;
      } else {
        assert (Active(front) + [a])[..|Active(front)|] == Active(front);
      }
    }
  }

  /**
   * The round trip. Every well-formed Anthropic stream, with any number of
   * pings and other ignored events between its frames, comes back as its normal
   * form: thinking and empty fragments dropped, adjacent text merged, blocks
   * renumbered from 0; tool ids, names and fragments and the output token count
   * unchanged; the stop reason as far as Chat can express it.
   */
  lemma RoundTrip(ids: IdSource, model: string, id: string, ids': IdSource, model': string, id': string,
      events: seq<AnthropicEvent>, name: string, aid: string, ps: seq<Piece>, stop: string, output: Option<int>,
      input: Option<int>)
    requires WellFormed(ps) && Heeded(events) == Heeded(Events(Render(aid, name, ps, stop, output), input))
    ensures
      var served := if model' != "" then model' else if model != "" then model else name;
      ThroughChat(ids, model, id, ids', model', id', events) ==
        Render(id', served, Normalize(ps), StopAfter(stop), output)
  {
    var frames := Events(Render(aid, name, ps, stop, output), input);
    HeededAreActive(events);
    HeededAreActive(frames);
    ActiveRuns(ids, A.Start(model, id), A.Actions(events));
    ActiveRuns(ids, A.Start(model, id), A.Actions(frames));
    FramesRoundTrip(ids, model, id, ids', model', id', name, aid, ps, stop, output, input);
  }

  /** What the second translator decodes of the first half. */
  lemma ReceivedChunks(body: seq<ChatFrame>, last: ChatChunk, model: string) returns (chunks: seq<ChatChunk>)
    requires StillOpen(body) && Named(body, model) && last.model == model
    requires |last.choices| == 1 && last.choices[0].delta == EMPTY_DELTA && last.choices[0].finish.Some?
    ensures U.Received(body + [Data(last), Done]) == U.SomeAll(chunks) && P.Live(U.SomeAll(chunks)) == chunks
    ensures chunks != [] && chunks[|chunks| - 1] == last && chunks[0].model == model
    ensures P.Units(chunks) == U.UnitsIn(body)
  {
    ChunksOfAppend(body, [Data(last), Done]);
    ChunksOfOpen(body, model);
    LastChunks(last);
    chunks := ChunksOf(body) + [last];
    U.LiveWhileOpen(chunks);
    assert chunks[..|chunks| - 1] == ChunksOf(body) && chunks[|chunks| - 1] == last;
    assert C.CallUnits([]) == [];
    assert P.Units(chunks) == U.UnitsIn(body) + [] == U.UnitsIn(body);
  }

  lemma LastChunks(last: ChatChunk)
    ensures ChunksOf([Data(last), Done]) == [last]
  {
    assert [Data(last), Done][1..] == [Done];
    assert ChunksOf([Done]) == ChunkIn(Done) + ChunksOf([]);
  }

  lemma SecondHalf(ids: IdSource, ps: seq<Piece>, stop: string, output: Option<int>)
    requires WellFormed(ps)
    ensures
      var (b, middle) := C.EmitAll(ids, C.NO_BLOCKS, PieceUnits(ps));
      middle + C.Closing(b, stop, output) == Pieces(Normalize(ps)) + [MessageDelta(stop, output), MessageStop]
  {
    PieceUnitsWrite(ids, ps);
    var (b, middle) := C.EmitAll(ids, C.NO_BLOCKS, PieceUnits(ps));
    assert OpenPieces(Normalize(ps)) == middle;
    PiecesClose(b, Normalize(ps), Tools(ps));
    Assoc(middle, C.StopOpen(b), [MessageDelta(stop, output), MessageStop]);
  }
}
