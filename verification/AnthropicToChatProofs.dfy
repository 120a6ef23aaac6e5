/** What the Chat stream written by AnthropicToChatTranslator means to its reader. */
module AnthropicToChatProofs {
  import opened Basics
  import opened Wire
  import opened AnthropicToChat
  import opened ChatReader
  import opened ChatUnits
  import C = ChatToAnthropic
  import P = ChatToAnthropicProofs

  predicate Ends(a: Action) {
    a.Conclude? || a.Halt? || a.Fail?
  }

  predicate Over(actions: seq<Action>) {
    actions != [] && Ends(actions[|actions| - 1])
  }

  /** The actions that count: up to and including the first that ends the stream. */
  function Live(actions: seq<Action>): seq<Action> {
    if actions == [] then []
    else
      var before, a := Live(actions[..|actions| - 1]), actions[|actions| - 1];
      if Over(before) then before else before + [a]
  }

  predicate Speaks(a: Action) {
    a.OpenTool? || a.Text? || a.Json? || a.Fail?
  }

  predicate Spoke(actions: seq<Action>) {
    exists k :: 0 <= k < |actions| && Speaks(actions[k])
  }

  /** The tool calls announced, by block index, in order; -1 for a missing or negative index. */
  function Slots(actions: seq<Action>): seq<int> {
    if actions == [] then []
    else
      var before, a := Slots(actions[..|actions| - 1]), actions[|actions| - 1];
      if a.OpenTool? then Announce(before, KeyOf(a.block), -1) else before
  }

  function KeyOf(block: int): int {
    if block >= 0 then block else -1
  }

  function DefaultFinish(actions: seq<Action>): string {
    if Slots(actions) == [] then "stop" else "tool_calls"
  }

  /** The one finish reason of a stream. */
  function FinishIn(actions: seq<Action>): string {
    if !Over(actions) || actions[|actions| - 1].Halt? then DefaultFinish(actions)
    else if actions[|actions| - 1].Fail? then "stop"
    else if actions[|actions| - 1].stop.Some? then AnthropicStopToChat(actions[|actions| - 1].stop.value)
    else DefaultFinish(actions)
  }

  ghost predicate Tracks(s: State, actions: seq<Action>) {
    && s.finished == Over(actions)
    && s.roleSent == Spoke(actions)
    && s.toolIndex == |Slots(actions)|
    && Numbers(s.toolByBlock, Slots(actions), -1)
    && (forall k :: 0 <= k < |Slots(actions)| ==> Slots(actions)[k] >= -1)
    && (!s.finished ==> s.finishReason == "")
  }

  lemma SpokeSnoc(front: seq<Action>, a: Action)
    ensures Spoke(front + [a]) <==> Spoke(front) || Speaks(a)
  {
    var all := front + [a];
    if Speaks(a) { assert Speaks(all[|front|]); }
    if Spoke(front) {
      var k :| 0 <= k < |front| && Speaks(front[k]);
      assert Speaks(all[k]);
    }
  }

  lemma SlotsSnoc(front: seq<Action>, a: Action)
    ensures Slots(front + [a]) == if a.OpenTool? then Announce(Slots(front), KeyOf(a.block), -1) else Slots(front)
  {
    assert (front + [a])[..|front|] == front;
  }

  lemma StepTracks(ids: IdSource, s: State, front: seq<Action>, a: Action)
    requires Tracks(s, front) && !s.finished
    ensures Tracks(Step(ids, s, a).0, front + [a])
  {
    assert (front + [a])[|front|] == a;
    SpokeSnoc(front, a);
    SlotsSnoc(front, a);
    if a.OpenTool? { StartTracks(ids, s, Slots(front), a); }
  }

  lemma StartTracks(ids: IdSource, s: State, slots: seq<int>, a: Action)
    requires Numbers(s.toolByBlock, slots, -1) && s.toolIndex == |slots| && a.OpenTool? && !s.finished
    requires forall k :: 0 <= k < |slots| ==> slots[k] >= -1
    ensures
      var s', slots' := Step(ids, s, a).0, Announce(slots, KeyOf(a.block), -1);
      && s'.toolIndex == |slots'| && Numbers(s'.toolByBlock, slots', -1)
      && forall k :: 0 <= k < |slots'| ==> slots'[k] >= -1
  {
    NumbersPlace(s.toolByBlock, slots, -1, KeyOf(a.block));
    AnnounceNumbers(s.toolByBlock, slots, -1, KeyOf(a.block));
  }

  lemma ReasonIs(s: State, front: seq<Action>)
    requires Tracks(s, front) && !s.finished
    ensures Reason(s) == DefaultFinish(front)
  {
  }

  lemma StopNonEmpty(stop: string)
    ensures AnthropicStopToChat(stop) != ""
  {
  }

  lemma StepReads(ids: IdSource, s: State, front: seq<Action>, a: Action)
    requires Tracks(s, front) && !s.finished
    ensures Read(Some(Reply(Spoke(front), None, false)), Step(ids, s, a).1)
         == Some(Reply(Spoke(front + [a]), if Ends(a) then Some(FinishIn(front + [a])) else None, Ends(a)))
  {
    var all, r, fs := front + [a], Reply(Spoke(front), None, false), Step(ids, s, a).1;
    assert all[|front|] == a;
    SpokeSnoc(front, a);
    SlotsSnoc(front, a);
    ReasonIs(s, front);
    if Ends(a) {
      EndReads(ids, s, front, a);
    } else if |fs| == 2 {
      ReadTwo(r, fs[0], fs[1]);
    } else if |fs| == 1 {
      ReadOne(r, fs[0]);
    }
  }

  lemma EndReads(ids: IdSource, s: State, front: seq<Action>, a: Action)
    requires Tracks(s, front) && !s.finished && Ends(a)
    ensures Read(Some(Reply(Spoke(front), None, false)), Step(ids, s, a).1)
         == Some(Reply(Spoke(front + [a]), Some(FinishIn(front + [a])), true))
  {
    var all, fs := front + [a], Step(ids, s, a).1;
    assert all[|front|] == a;
    SpokeSnoc(front, a);
    ReasonIs(s, front);
    SlotsSnoc(front, a);
    if a.Conclude? && a.stop.Some? { StopNonEmpty(a.stop.value); }
    ReadTwo(Reply(Spoke(front), None, false), fs[0], Done);
    assert fs == [fs[0], Done];
  }

  lemma {:induction false} RunReads(ids: IdSource, model: string, id: string, actions: seq<Action>)
    ensures
      var (s, fs), live := Run(ids, Start(model, id), actions), Live(actions);
      && Tracks(s, live)
      && Read(Some(NO_REPLY), fs) ==
           Some(Reply(Spoke(live), if Over(live) then Some(FinishIn(live)) else None, Over(live)))
  {
    if actions != [] {
      var front, a := actions[..|actions| - 1], actions[|actions| - 1];
      var (s, fs) := Run(ids, Start(model, id), front);
      RunReads(ids, model, id, front);
      ReadAppend(Some(NO_REPLY), fs, Step(ids, s, a).1);
      if s.finished {
        assert fs + [] == fs;
      } else {
        StepTracks(ids, s, Live(front), a);
        StepReads(ids, s, Live(front), a);
        assert (Live(front) + [a])[|Live(front)|] == a;
      }
    }
  }

  /**
   * For every event sequence ended by Finish: one finish reason, then one
   * [DONE], which is last; the role comes exactly once, with the first delta,
   * when there is one.
   */
  lemma StreamIsOneReply(ids: IdSource, model: string, id: string, actions: seq<Action>)
    ensures Read(Some(NO_REPLY), Stream(ids, model, id, actions))
         == Some(Reply(Spoke(Live(actions)), Some(FinishIn(Live(actions))), true))
  {
    var (s, fs) := Run(ids, Start(model, id), actions);
    var live := Live(actions);
    RunReads(ids, model, id, actions);
    ReadAppend(Some(NO_REPLY), fs, Finish(s).1);
    if s.finished {
      assert fs + [] == fs;
    } else {
      ReasonIs(s, live);
      ReadTwo(Reply(Spoke(live), None, false), Finish(s).1[0], Done);
      assert Finish(s).1 == [Finish(s).1[0], Done];
    }
  }

  /**
   * Tool indices. The chunk for a tool start carries the place of its block
   * among the announced ones, counted 0, 1, 2, ... in order of first
   * announcement; a block announced again keeps its place, and announcing more
   * tools later changes no place.
   */
  lemma StartGetsItsPlace(ids: IdSource, model: string, id: string, actions: seq<Action>, a: Action)
    requires a.OpenTool? && !Over(Live(actions))
    ensures
      var s, slots := Run(ids, Start(model, id), actions).0, Slots(Live(actions));
      var frames, place := Step(ids, s, a).1, PlaceOf(slots, KeyOf(a.block), -1);
      && |frames| == 1 && frames[0].Data? && |frames[0].chunk.choices| == 1
      && |frames[0].chunk.choices[0].delta.tools| == 1
      && frames[0].chunk.choices[0].delta.tools[0].index == Some(place)
      && frames[0].chunk.choices[0].delta.tools[0].name == a.name
      && (a.id != "" ==> frames[0].chunk.choices[0].delta.tools[0].id == a.id)
      && place < |Slots(Live(actions) + [a])| && Slots(Live(actions) + [a])[place] == KeyOf(a.block)
      && slots <= Slots(Live(actions) + [a])
  {
    RunReads(ids, model, id, actions);
    var s, slots := Run(ids, Start(model, id), actions).0, Slots(Live(actions));
    StartIndex(s, Live(actions), a.block);
    SlotsSnoc(Live(actions), a);
    PlaceKept(slots, KeyOf(a.block));
    StartChunk(ids, s, a);
  }

  lemma StartIndex(s: State, actions: seq<Action>, block: int)
    requires Tracks(s, actions)
    ensures (if block in s.toolByBlock then s.toolByBlock[block] else s.toolIndex)
         == PlaceOf(Slots(actions), KeyOf(block), -1)
  {
    NumbersPlace(s.toolByBlock, Slots(actions), -1, KeyOf(block));
  }

  lemma StartChunk(ids: IdSource, s: State, a: Action)
    requires a.OpenTool? && !s.finished
    ensures
      var frames := Step(ids, s, a).1;
      && |frames| == 1 && frames[0].Data? && |frames[0].chunk.choices| == 1
      && |frames[0].chunk.choices[0].delta.tools| == 1
      && var call := frames[0].chunk.choices[0].delta.tools[0];
      && call.index == Some(if a.block in s.toolByBlock then s.toolByBlock[a.block] else s.toolIndex)
      && call.name == a.name && (a.id != "" ==> call.id == a.id)
  {
  }

  lemma PlaceKept(slots: seq<int>, key: int)
    ensures
      var more, place := Announce(slots, key, -1), PlaceOf(slots, key, -1);
      place < |more| && more[place] == key && slots <= more
  {
  }

  // ----- Text conservation, for every event sequence -----

  function TextIn(actions: seq<Action>): string {
    if actions == [] then "" else TextIn(actions[..|actions| - 1]) + TextOf(actions[|actions| - 1])
  }

  function TextOf(a: Action): string {
    if a.Text? then a.text else if a.Fail? then "[Error] " + a.reason else ""
  }

  /** The units the chunks of one action amount to. */
  function ActionUnits(ids: IdSource, s: State, a: Action): seq<C.Unit> {
    match a
    case OpenTool(block, id, name) =>
      var idx := if block in s.toolByBlock then s.toolByBlock[block] else s.toolIndex;
      [C.Call(idx, if id == "" then DrawId(ids, s) else id, name, "")]
    case Text(text) => C.SayUnits(Some(text))
    case Json(block, json) =>
      var idx := JsonIndex(s, block);
      (if idx in s.toolStarted then [] else [C.Call(idx, DrawId(ids, s), "", "")]) + [C.Call(idx, "", "", json)]
    case Fail(reason) => [C.Say("[Error] " + reason)]
    case _ => []
  }

  lemma StepUnits(ids: IdSource, s: State, a: Action)
    requires !s.finished
    ensures UnitsIn(Step(ids, s, a).1) == ActionUnits(ids, s, a)
  {
    var fs := Step(ids, s, a).1;
    assert C.CallUnits([]) == [];
    match a
    case OpenTool(block, id, name) =>
      DeltaUnits(fs[0], None, None, fs[0].chunk.choices[0].delta.tools);
      OneCall(fs[0].chunk.choices[0].delta.tools[0]);
    case Text(text) => DeltaUnits(fs[0], Some(text), None, []);
    case Json(block, json) => JsonUnits(ids, s, block, json);
    case Fail(reason) => EndUnits(fs[0], Some("[Error] " + reason));
    case Begin(_) =>
    case Nothing =>
    case _ => EndUnits(fs[0], None);
  }

  /** The final chunk and the marker. */
  lemma EndUnits(f: ChatFrame, content: Option<string>)
    requires f.Data? && |f.chunk.choices| == 1
    requires f.chunk.choices[0].delta.(role := "") == ChatDelta("", content, None, [])
    ensures UnitsIn([f, Done]) == C.SayUnits(content)
  {
    assert [f, Done] == [f] + [Done];
    UnitsInAppend([f], [Done]);
    UnitsInOne(Done);
    DeltaUnits(f, content, None, []);
    assert C.CallUnits([]) == [];
  }

  lemma JsonUnits(ids: IdSource, s: State, block: int, json: string)
    ensures UnitsIn(AddJson(ids, s, block, json).1) == ActionUnits(ids, s, Json(block, json))
  {
    var fs := AddJson(ids, s, block, json).1;
    DeltaUnits(fs[0], None, None, fs[0].chunk.choices[0].delta.tools);
    OneCall(fs[0].chunk.choices[0].delta.tools[0]);
    if |fs| == 2 {
      assert fs == [fs[0]] + [fs[1]];
      UnitsInAppend([fs[0]], [fs[1]]);
      DeltaUnits(fs[1], None, None, fs[1].chunk.choices[0].delta.tools);
      OneCall(fs[1].chunk.choices[0].delta.tools[0]);
    }
  }

  lemma ActionSays(ids: IdSource, s: State, a: Action)
    ensures P.Said(ActionUnits(ids, s, a)) == TextOf(a)
  {
    var us := ActionUnits(ids, s, a);
    match a
    case Text(text) => SaidOne(C.Say(text));
    case Fail(reason) => SaidOne(C.Say("[Error] " + reason));
    case _ => CallsAreSilent(us);
  }

  lemma StepContent(ids: IdSource, s: State, fs: seq<ChatFrame>, a: Action)
    requires !s.finished
    ensures Content(fs + Step(ids, s, a).1) == Content(fs) + TextOf(a)
  {
    UnitsInAppend(fs, Step(ids, s, a).1);
    StepUnits(ids, s, a);
    ActionSays(ids, s, a);
    SaidAppend(UnitsIn(fs), ActionUnits(ids, s, a));
  }

  /** The content of the Chat stream is the text of the Anthropic stream, plus the error text when an error ends it. */
  lemma {:induction false} TextSurvives(ids: IdSource, model: string, id: string, actions: seq<Action>)
    ensures Content(Run(ids, Start(model, id), actions).1) == TextIn(Live(actions))
  {
    if actions != [] {
      var front, a := actions[..|actions| - 1], actions[|actions| - 1];
      var (s, fs) := Run(ids, Start(model, id), front);
      TextSurvives(ids, model, id, front);
      RunReads(ids, model, id, front);
      if s.finished {
        assert fs + [] == fs;
      } else {
        StepContent(ids, s, fs, a);
        assert (Live(front) + [a])[..|Live(front)|] == Live(front);
      }
    }
  }
}
